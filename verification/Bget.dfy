/** The BGET allocator as the kernel builds it: best fit, no callbacks installed,
    one pool. Every header and link lives in `mem`; `heap` is what they encode. */
module Bget {
  import opened Basics
  import opened BgetLayout
  import opened BgetSteps
  import opened BgetTheorems
  import opened BgetMemory
  import opened BgetStores
  import opened BgetResize
  import KString

  // ---------------------------------------------------------------- reading an encoding

  /** The size word of a listed block, under the tags alone. */
  lemma ReadSize(m: seq<int>, h: Heap, k: nat)
    requires WellFormed(h) && TagsOk(m, h, {}, {}) && k < |h.free|
    ensures h.free[k] + MIN_BLOCK <= |m| && m[h.free[k] + BSIZE] == h.blocks[Slot(h, k)].size
  {
    HeadIn(h, Slot(h, k));
    assert SizeOk(m, h, Slot(h, k)) && BlockOk(h, Slot(h, k));
  }

  /** What the words of list entry `k` say. */
  lemma ReadFree(m: seq<int>, h: Heap, k: nat)
    requires Encodes(m, h) && k < |h.free|
    ensures var b := h.free[k]; var i := Slot(h, k); var x := h.blocks[i];
            && b + MIN_BLOCK <= |m| && b != h.anchor && b > 0
            && m[b + BSIZE] == x.size
            && m[b + FLINK] == Node(h, k + 2) && m[b + BLINK] == Node(h, k)
            && b + x.size + HEADER <= |m| && m[b + x.size + PREVFREE] == x.size
            && Node(h, k + 2) + MIN_BLOCK <= |m| && m[Node(h, k + 2) + BLINK] == b
            && Node(h, k) + MIN_BLOCK <= |m| && m[Node(h, k) + FLINK] == b
  {
    var i := Slot(h, k);
    HeadIn(h, i);
    assert LinkOk(m, h, k) && LinkOk(m, h, k + 1);
    assert SizeOk(m, h, i) && PrevOk(m, h, i + 1) && BlockOk(h, i);
  }

  lemma ReadAnchor(m: seq<int>, h: Heap)
    requires Encodes(m, h)
    ensures h.anchor + MIN_BLOCK <= |m| && h.anchor > 0
    ensures m[h.anchor + FLINK] == Node(h, 1) && m[h.anchor + BLINK] == Node(h, |h.free|)
    ensures Node(h, |h.free|) + MIN_BLOCK <= |m| && m[Node(h, |h.free|) + FLINK] == h.anchor
    ensures Node(h, 1) + MIN_BLOCK <= |m| && m[Node(h, 1) + BLINK] == h.anchor
  {
    assert LinkOk(m, h, 0) && LinkOk(m, h, |h.free|);
  }

  /** What the links of list entry `k` say, and that its neighbours' words are not its own. */
  lemma ReadLinks(m: seq<int>, h: Heap, k: nat)
    requires LinksOk(m, h) && Listed(h) && k < |h.free|
    ensures var b, back, forth := h.free[k], Node(h, k), Node(h, k + 2);
            && b + MIN_BLOCK <= |m| && back + MIN_BLOCK <= |m| && forth + MIN_BLOCK <= |m|
            && m[b + FLINK] == forth && m[b + BLINK] == back && m[back + FLINK] == b && m[forth + BLINK] == b
            && (b + MIN_BLOCK <= back || back + MIN_BLOCK <= b)
  {
    assert LinkOk(m, h, k) && LinkOk(m, h, k + 1);
    NodesApart(h, k, k + 1);
  }

  /** What the headers around block `i` say. */
  lemma ReadBlock(m: seq<int>, h: Heap, i: nat)
    requires TagsOk(m, h, {}, {i + 1}) && i < |h.blocks|
    ensures var x := h.blocks[i];
            && x.start + MIN_BLOCK <= |m| && x.size >= MIN_BLOCK
            && m[x.start + BSIZE] == Tag(x)
            && m[x.start + PREVFREE] == PrevTag(h, i)
            && HeadAt(h, i + 1) == x.start + x.size && x.start + x.size + HEADER <= |m|
            && m[x.start + x.size + BSIZE] == if i + 1 < |h.blocks| then Tag(h.blocks[i + 1]) else ESENT
  {
    HeadIn(h, i);
    assert SizeOk(m, h, i) && SizeOk(m, h, i + 1) && PrevOk(m, h, i) && BlockOk(h, i);
  }

  lemma ReadWhole(m: seq<int>, h: Heap, i: nat)
    requires Encodes(m, h) && i < |h.blocks|
    ensures var x := h.blocks[i];
            && x.start + MIN_BLOCK <= |m| && x.size >= MIN_BLOCK
            && m[x.start + BSIZE] == Tag(x)
            && m[x.start + PREVFREE] == PrevTag(h, i)
            && HeadAt(h, i + 1) == x.start + x.size && x.start + x.size + HEADER <= |m|
            && m[x.start + x.size + PREVFREE] == if x.free then x.size else 0
  {
    HeadIn(h, i);
    assert SizeOk(m, h, i) && PrevOk(m, h, i) && PrevOk(m, h, i + 1) && BlockOk(h, i);
  }

  /** Two free neighbours, the back tag between them still missing. */
  lemma ReadPair(m: seq<int>, h: Heap, j: nat)
    requires TagsOk(m, h, {}, {j + 1}) && j + 1 < |h.blocks| && h.blocks[j].free && h.blocks[j + 1].free
    ensures var y, z := h.blocks[j], h.blocks[j + 1];
            && y.start + HEADER <= |m| && z.start + HEADER <= |m| && z.start + z.size + HEADER <= |m|
            && m[y.start + BSIZE] == y.size && m[z.start + BSIZE] == z.size
            && m[z.start + z.size + PREVFREE] == z.size
  {
    HeadIn(h, j);
    HeadIn(h, j + 1);
    HeadIn(h, j + 2);
    assert SizeOk(m, h, j) && SizeOk(m, h, j + 1) && PrevOk(m, h, j + 2) && BlockOk(h, j + 1);
  }

  /** The list entry of the free block after block `j`. */
  lemma ListedNext(h: Heap, j: nat) returns (k: nat)
    requires Loose(h) && j + 1 < |h.blocks| && h.blocks[j + 1].free
    ensures k < |h.free| && h.free[k] == h.blocks[j + 1].start
  {
    assert Covered(h, j + 1);
    k :| 0 <= k < |h.free| && h.free[k] == h.blocks[j + 1].start;
  }

  /** With no free neighbours left, the header after a free block is marked allocated. */
  lemma UsedAfter(m: seq<int>, h: Heap, j: nat)
    requires WellFormed(h) && TagsOk(m, h, {}, {j + 1}) && j < |h.blocks| && h.blocks[j].free
    ensures var bn := h.blocks[j].start + h.blocks[j].size; bn + HEADER <= |m| && m[bn + BSIZE] < 0
  {
    ReadBlock(m, h, j);
    if j + 1 < |h.blocks| { assert !BothFree(h, j) && BlockOk(h, j + 1); }
  }

  /** The last list node is the static head or lies clear of every used block. */
  lemma LastNodeApart(h: Heap, i: nat)
    requires Placed(h) && Tiled(h) && Listed(h) && i < |h.blocks| && !h.blocks[i].free
    ensures var last := Node(h, |h.free|); var b := h.blocks[i].start;
            last == h.anchor || (h.base <= last && (last + MIN_BLOCK <= b || b + MIN_BLOCK <= last))
  {
    NodeClear(h, |h.free|, i);
    if |h.free| > 0 {
      var s := Slot(h, |h.free| - 1);
      if s < i { HeadsApart(h, s, i); } else { HeadsApart(h, i, s); }
    }
  }

  /** Before the first entry of the list. */
  lemma ScanEnds(m: seq<int>, h: Heap, size: nat)
    requires Encodes(m, h)
    ensures Listed(h) && BestOf(h, size, 0) == None && (Node(h, 1) == h.anchor <==> |h.free| == 0)
  {
    if |h.free| > 0 { ReadFree(m, h, 0); }
  }

  /** One entry of the list, as the scan reads it. */
  lemma ScanStep(m: seq<int>, h: Heap, size: nat, k: nat)
    requires Encodes(m, h) && k < |h.free|
    ensures var b := Node(h, k + 1);
            && Listed(h) && b == h.free[k] && b != h.anchor && b + MIN_BLOCK <= |m| && m[b + FLINK] == Node(h, k + 2)
            && (Node(h, k + 2) == h.anchor <==> k + 1 == |h.free|)
    ensures BestOf(h, size, k).Some? ==>
              var q := BestOf(h, size, k).value; h.free[q] != h.anchor && h.free[q] + MIN_BLOCK <= |m|
    ensures BestOf(h, size, k + 1) ==
              if m[h.free[k] + BSIZE] >= size
                 && (BestOf(h, size, k).None? || m[h.free[k] + BSIZE] < m[h.free[BestOf(h, size, k).value] + BSIZE])
              then Some(k) else BestOf(h, size, k)
  {
    hide TagsOk, LinksOk;
    ReadFree(m, h, k);
    if BestOf(h, size, k).Some? { ReadFree(m, h, BestOf(h, size, k).value); }
    if k + 1 < |h.free| { ReadFree(m, h, k + 1); }
  }

  /** What a release finds, and the two halves it is made of. */
  lemma ReleaseReady(m: seq<int>, h: Heap, buf: nat) returns (i: nat)
    requires Encodes(m, h) && Live(h, buf)
    ensures i < |h.blocks| && !h.blocks[i].free && buf >= HEADER && h.blocks[i].start == buf - HEADER
    ensures var b := buf - HEADER;
            && b + HEADER <= |m| && m[b + BSIZE] < 0
            && 0 <= b - m[b + BSIZE] && b - m[b + BSIZE] + HEADER <= |m| && m[b - m[b + BSIZE] + PREVFREE] == 0
    ensures var n := JoinBack(h, i); var j := Joined(h, i);
            && j < |n.blocks| && Loose(n) && n.blocks[j].free && FreeOnlyAfter(n, j) && n.anchor == h.anchor
            && Release(h, buf) == JoinNext(n, j)
            && SamePool(n, JoinNext(n, j)) && Spans(JoinNext(n, j)) == Spans(n)
  {
    hide Quiet, TagsOk, LinksOk;
    i := IndexOf(h, buf - HEADER);
    IndexUnique(h, i);
    JoinBackKeeps(h, i);
    ReadWhole(m, h, i);
    JoinNextSpans(JoinBack(h, i), Joined(h, i));
  }

  class BgetHeap {
    const mem: array<int>
    const anchor: nat
    ghost var heap: Heap

    /** The static list head points to itself: no pool yet. */
    ghost predicate Unpooled()
      reads mem
    {
      && anchor > 0 && anchor % 4 == 0 && anchor + MIN_BLOCK <= mem.Length
      && mem[anchor + FLINK] == anchor && mem[anchor + BLINK] == anchor
    }

    ghost predicate Valid()
      reads this, mem
    {
      Encodes(mem[..], heap) && heap.anchor == anchor
    }

    constructor (mem: array<int>, anchor: nat)
      requires anchor > 0 && anchor % 4 == 0 && anchor + MIN_BLOCK <= mem.Length
      modifies mem
      ensures Unpooled() && this.mem == mem && this.anchor == anchor
      ensures forall c :: 0 <= c < mem.Length && !(anchor <= c < anchor + MIN_BLOCK) ==> mem[c] == old(mem[c])
    {
      this.mem := mem;
      this.anchor := anchor;
      new;
      mem[anchor + FLINK] := anchor;
      mem[anchor + BLINK] := anchor;
    }

    /** Store a 32-bit word. */
    method Poke(a: nat, v: int)
      requires a + WORD <= mem.Length
      modifies mem
      ensures mem[..] == Store(old(mem[..]), a, v)
    {
      mem[a] := v;
      mem[a + 1] := 0;
      mem[a + 2] := 0;
      mem[a + 3] := 0;
      StoredIsStore(old(mem[..]), a, v, mem[..]);
    }

    /** Tag the pool's one free block and write the end sentinel behind it. */
    method Seal(b: nat, size: nat)
      requires b + size + HEADER <= mem.Length && b + HEADER <= mem.Length
      modifies mem
      ensures mem[..] == Store(Store(Store(old(mem[..]), b + BSIZE, size), b + size + PREVFREE, size), b + size + BSIZE, ESENT)
    {
      Poke(b + BSIZE, size);
      Poke(b + size + PREVFREE, size);
      Poke(b + size + BSIZE, ESENT);
    }

    /** The stores of `Bpool`: no free predecessor, on the list, a free block, and the sentinel. */
    method WritePool(buf: nat, size: nat)
      requires anchor + MIN_BLOCK <= buf && buf + size + HEADER <= mem.Length && size >= MIN_BLOCK
      requires mem[anchor + FLINK] == anchor && mem[anchor + BLINK] == anchor
      modifies mem
      ensures mem[..] == PoolStores(old(mem[..]), anchor, buf, size)
    {
      Poke(buf + PREVFREE, 0);
      assert mem[anchor + FLINK] == anchor && mem[anchor + BLINK] == anchor;
      hide Store, AppendStores;
      Chain(buf);
      Seal(buf, size);
    }

    /** Adds the region of `len` bytes at `buf` to the empty heap. */
    method Bpool(buf: nat, len: nat)
      requires Unpooled()
      requires buf % 4 == 0 && anchor + MIN_BLOCK <= buf && buf + len <= mem.Length
      requires MIN_BLOCK + HEADER <= len && len - len % 4 - HEADER <= MAX_BUFSIZE
      modifies this, mem
      ensures Valid() && heap == Fresh(anchor, buf, len - len % 4)
      ensures Quiet(old(mem[..]), mem[..], heap)
    {
      hide Encodes, Quiet, Kept, PoolStores;
      var size := len - len % 4;
      assert Fresh(anchor, buf, size).anchor == anchor;
      hide Fresh;
      PoolEncodes(mem[..], anchor, buf, size - HEADER);
      size := size - HEADER;
      WritePool(buf, size);
      heap := Fresh(anchor, buf, size + HEADER);
    }

    // -------------------------------------------------------------- the free list

    /** Chain `b` to the end of the free list. */
    method Chain(b: nat)
      requires anchor + MIN_BLOCK <= b && b + MIN_BLOCK <= mem.Length
      requires var last := mem[anchor + BLINK];
               last == anchor || (anchor + MIN_BLOCK <= last && last + MIN_BLOCK <= mem.Length
                                  && (last + MIN_BLOCK <= b || b + MIN_BLOCK <= last))
      modifies mem
      ensures mem[..] == AppendStores(old(mem[..]), anchor, b, old(mem[anchor + BLINK]))
      ensures mem[b + BSIZE] == old(mem[b + BSIZE])
    {
      Poke(b + FLINK, anchor);
      Poke(b + BLINK, mem[anchor + BLINK]);
      Poke(anchor + BLINK, b);
      Poke(mem[b + BLINK] + FLINK, b);
    }

    /** Unchain list entry `k`, which is block `b`; its own words keep their values. */
    method Unchain(b: nat, ghost k: nat, ghost prevHoles: set<int>)
      requires TagsOk(mem[..], heap, {}, prevHoles) && LinksOk(mem[..], heap) && heap.anchor == anchor
      requires k < |heap.free| && b == heap.free[k]
      modifies mem
      ensures Node(heap, k) + MIN_BLOCK <= mem.Length && Node(heap, k + 2) + MIN_BLOCK <= mem.Length
      ensures mem[..] == UnlinkStores(old(mem[..]), Node(heap, k), Node(heap, k + 2))
      ensures TagsOk(mem[..], heap, {}, prevHoles)
    {
      hide LinksOk, Listed, Placed, Tiled, Quiet, Node;
      ReadLinks(mem[..], heap, k);
      LinkStore(mem[..], heap, k, FLINK, Node(heap, k + 2), {}, prevHoles);
      assert mem[mem[b + BLINK] + FLINK] == b;
      assert mem[mem[b + FLINK] + BLINK] == b;
      Poke(mem[b + BLINK] + FLINK, mem[b + FLINK]);
      LinkStore(mem[..], heap, k + 2, BLINK, Node(heap, k), {}, prevHoles);
      Poke(mem[b + FLINK] + BLINK, mem[b + BLINK]);
    }

    // -------------------------------------------------------------- bget

    /** The scan for the best fitting block; returns the list head if none fits. */
    method Scan(size: nat) returns (best: nat)
      requires Valid()
      ensures best == match BestOf(heap, size, |heap.free|) case None => anchor case Some(q) => heap.free[q]
    {
      hide Encodes, BestOf, Slot, Fits, Node;
      ghost var m := mem[..];
      ScanEnds(m, heap, size);
      ReadAnchor(m, heap);
      var b := mem[anchor + FLINK];
      best := anchor;
      ghost var k := 0;
      while b != anchor
        invariant Listed(heap) && 0 <= k <= |heap.free| && b == Node(heap, k + 1) && (b == anchor <==> k == |heap.free|)
        invariant best == match BestOf(heap, size, k) case None => anchor case Some(q) => heap.free[q]
        decreases |heap.free| - k
      {
        ScanStep(m, heap, size, k);
        if mem[b + BSIZE] >= size {
          if best == anchor || mem[b + BSIZE] < mem[best + BSIZE] {
            best := b;
          }
        }
        b := mem[b + FLINK];
        k := k + 1;
      }
      assert k == |heap.free|;
    }

    /** Write the tags of a split: `b` keeps `rest` bytes, the block after it takes `size`. */
    method CutTail(b: nat, rest: nat, size: nat)
      requires MIN_BLOCK <= rest && b + rest + size + HEADER <= mem.Length && HEADER <= size
      modifies mem
      ensures mem[..] == SplitStores(old(mem[..]), b, rest, size)
    {
      Poke(b + BSIZE, rest);
      Poke(b + rest + PREVFREE, rest);
      Poke(b + rest + BSIZE, -(size as int));
      Poke(b + rest + size + PREVFREE, 0);
    }

    /** Hand out the last `size` bytes of free block `b`. */
    method TakeTail(b: nat, size: nat, ghost k: nat) returns (buf: nat)
      requires Valid() && CanCarve(heap, k, size) && b == heap.free[k]
      requires heap.blocks[Slot(heap, k)].size - size > SIZE_Q + HEADER
      modifies this, mem
      ensures Valid() && (heap, buf) == Carve(old(heap), k, size)
      ensures Quiet(old(mem[..]), mem[..], heap)
    {
      hide Quiet, Kept, Coded, NoAdjacentFree;
      ReadFree(mem[..], heap, k);
      SplitEncodes(mem[..], heap, k, size);
      var rest := mem[b + BSIZE] - size;
      assert mem[b + rest + size + PREVFREE] == mem[b + BSIZE];
      CutTail(b, rest, size);
      heap := Carve(heap, k, size).0;
      buf := b + rest + HEADER;
    }

    /** Tag a block as taken, and the one after it as not following a free block. */
    method MarkTaken(b: nat, ba: nat)
      requires b + HEADER <= mem.Length && ba + HEADER <= mem.Length
      modifies mem
      ensures mem[..] == Store(Store(old(mem[..]), b + BSIZE, -old(mem[b + BSIZE])), ba + PREVFREE, 0)
    {
      Poke(b + BSIZE, -mem[b + BSIZE]);
      Poke(ba + PREVFREE, 0);
    }

    /** Take free block `b` off the list and hand out all of it. */
    method TakeWhole(b: nat, size: nat, ghost k: nat) returns (buf: nat)
      requires Valid() && CanCarve(heap, k, size) && b == heap.free[k]
      requires heap.blocks[Slot(heap, k)].size - size <= SIZE_Q + HEADER
      modifies this, mem
      ensures Valid() && (heap, buf) == Carve(old(heap), k, size)
      ensures Quiet(old(mem[..]), mem[..], heap)
    {
      hide LinksOk, Quiet;
      ghost var m := mem[..];
      ReadFree(m, heap, k);
      ReadSize(m, heap, k);
      WholeEncodes(m, heap, k, size);
      assert TagsOk(m, heap, {}, {}) && LinksOk(m, heap);
      hide Encodes, WellFormed, TagsOk;
      var ba := b + mem[b + BSIZE];
      assert mem[ba + PREVFREE] == mem[b + BSIZE];
      Unchain(b, k, {});
      ReadSize(mem[..], heap, k);
      hide Store, UnlinkStores, Listed, Slot, Carve;
      MarkTaken(b, ba);
      assert mem[..] == WholeStores(m, Node(heap, k), Node(heap, k + 2), b, heap.blocks[Slot(heap, k)].size);
      heap := Carve(heap, k, size).0;
      buf := b + HEADER;
    }

    /** Allocates a buffer; 0 stands for the null pointer. */
    method Bget(requested: int) returns (buf: nat)
      requires Valid() && 0 < requested <= MAX_REQUEST
      modifies this, mem
      ensures Valid()
      ensures (heap, if buf == 0 then None else Some(buf)) == Alloc(old(heap), requested)
      ensures Quiet(old(mem[..]), mem[..], heap)
      ensures buf == 0 ==> mem[..] == old(mem[..]) && heap == old(heap)
      ensures SamePool(old(heap), heap)
    {
      hide TagsOk, LinksOk, BestOf;
      var size: nat := requested;
      if size < SIZE_Q {
        size := SIZE_Q;
      }
      size := (size + 3) - (size + 3) % 4;
      size := size + HEADER;
      NeedBounds(requested);
      assert size == Need(requested);
      hide Need;
      BestFitsAt(heap, size, |heap.free|);
      var b := Scan(size);
      if b != anchor {
        ghost var k := BestOf(heap, size, |heap.free|).value;
        ReadFree(mem[..], heap, k);
        if mem[b + BSIZE] - size > SIZE_Q + HEADER {
          buf := TakeTail(b, size, k);
        } else {
          buf := TakeWhole(b, size, k);
        }
      } else {
        if BestOf(heap, size, |heap.free|).Some? {
          ReadFree(mem[..], heap, BestOf(heap, size, |heap.free|).value);
        }
        buf := 0;
      }
    }

    // -------------------------------------------------------------- brel

    /** The predecessor of buffer `b` is free: let it grow over the buffer. */
    method MergeBack(b: nat, ghost i: nat) returns (first: nat)
      requires Valid() && 0 < i < |heap.blocks| && !heap.blocks[i].free && heap.blocks[i - 1].free
      requires heap.blocks[i].start == b
      modifies this, mem
      ensures heap == JoinBack(old(heap), i) && first == old(heap).blocks[i - 1].start
      ensures Coded(mem[..], heap, {i as int})
      ensures Quiet(old(mem[..]), mem[..], heap)
    {
      ghost var m := mem[..];
      ReadWhole(m, heap, i - 1);
      ReadWhole(m, heap, i);
      MergeBackCoded(m, heap, i);
      hide Encodes, WellFormed, Quiet, Coded, TagsOk;
      var size := mem[b + BSIZE];
      assert mem[b - mem[b + PREVFREE] + BSIZE] == mem[b + PREVFREE];
      first := b - mem[b + PREVFREE];
      Poke(first + BSIZE, mem[first + BSIZE] - size);
      heap := JoinBack(heap, i);
    }

    /** The predecessor of buffer `b` is allocated: put the buffer on the free list by itself. */
    method AppendFree(b: nat, ghost i: nat)
      requires Valid() && i < |heap.blocks| && !heap.blocks[i].free && !(i > 0 && heap.blocks[i - 1].free)
      requires heap.blocks[i].start == b
      modifies this, mem
      ensures heap == JoinBack(old(heap), i)
      ensures Coded(mem[..], heap, {i + 1})
      ensures Quiet(old(mem[..]), mem[..], heap)
    {
      hide Quiet, LinksOk, TagsOk;
      ghost var m := mem[..];
      ReadWhole(m, heap, i);
      ReadAnchor(m, heap);
      AppendCoded(m, heap, i);
      LastNodeApart(heap, i);
      HeadIn(heap, i);
      HeadIn(heap, 0);
      hide Encodes, WellFormed, Coded;
      assert mem[mem[anchor + BLINK] + FLINK] == anchor;
      assert mem[mem[anchor + FLINK] + BLINK] == anchor;
      hide Store, AppendStores, JoinBack;
      Chain(b);
      Poke(b + BSIZE, -mem[b + BSIZE]);
      assert mem[..] == Store(AppendStores(m, anchor, b, Node(heap, |heap.free|)), b + BSIZE, heap.blocks[i].size);
      heap := JoinBack(heap, i);
    }

    /** The successor `bn` of free block `b` is free: unchain it and let `b` grow over it. */
    method MergeNext(b: nat, bn: nat, ghost j: nat)
      requires Loose(heap) && heap.anchor == anchor && Coded(mem[..], heap, {j + 1}) && FreeOnlyAfter(heap, j)
      requires j + 1 < |heap.blocks| && heap.blocks[j].free && heap.blocks[j + 1].free
      requires heap.blocks[j].start == b && heap.blocks[j + 1].start == bn
      modifies this, mem
      ensures heap == JoinNext(old(heap), j)
      ensures Coded(mem[..], heap, {j + 1})
      ensures Quiet(old(mem[..]), mem[..], heap)
    {
      hide Quiet, Loose, FreeOnlyAfter, LinksOk, TagsOk, JoinNext, Node;
      ghost var m := mem[..];
      ghost var k := ListedNext(heap, j);
      ReadPair(m, heap, j);
      MergeNextCoded(m, heap, j, k);
      assert mem[bn + mem[bn + BSIZE] + PREVFREE] == mem[bn + BSIZE];
      Unchain(bn, k, {j + 1});
      ReadPair(mem[..], heap, j);
      hide Coded, Store, UnlinkStores;
      Poke(b + BSIZE, mem[b + BSIZE] + mem[bn + BSIZE]);
      assert mem[..] == Store(UnlinkStores(m, Node(heap, k), Node(heap, k + 2)), b + BSIZE,
                              heap.blocks[j].size + heap.blocks[j + 1].size);
      heap := JoinNext(heap, j);
    }

    /** Absorb a free successor of block `b` and set the back tag that follows. */
    method TakeNext(b: nat, ghost j: nat)
      requires Loose(heap) && heap.anchor == anchor && Coded(mem[..], heap, {j + 1}) && FreeOnlyAfter(heap, j)
      requires j < |heap.blocks| && heap.blocks[j].free && heap.blocks[j].start == b
      modifies this, mem
      ensures Valid() && heap == JoinNext(old(heap), j)
      ensures Quiet(old(mem[..]), mem[..], heap)
    {
      hide Quiet, LinksOk, TagsOk;
      ghost var m := mem[..];
      JoinNextKeeps(heap, j);
      ReadBlock(m, heap, j);
      var bn := b + mem[b + BSIZE];
      if mem[bn + BSIZE] > 0 {
        MergeNext(b, bn, j);
        ReadBlock(mem[..], heap, j);
        bn := b + mem[b + BSIZE];
      } else if j + 1 < |heap.blocks| {
        assert BlockOk(heap, j + 1);
      }
      assert heap == JoinNext(old(heap), j);
      ghost var m1 := mem[..];
      ReadBlock(m1, heap, j);
      UsedAfter(m1, heap, j);
      LastFill(m1, heap, j);
      hide Loose, Coded, FreeOnlyAfter, WellFormed;
      assert mem[bn + BSIZE] < 0;
      Poke(bn + PREVFREE, mem[b + BSIZE]);
      QuietTrans(m, m1, mem[..], heap);
    }

    /** The first half of a release: the buffer joins a free predecessor or the end of the list. */
    method JoinPrevious(b: nat, ghost i: nat) returns (first: nat)
      requires Valid() && i < |heap.blocks| && !heap.blocks[i].free && heap.blocks[i].start == b
      modifies this, mem
      ensures heap == JoinBack(old(heap), i)
      ensures Coded(mem[..], heap, {Joined(old(heap), i) + 1}) && Quiet(old(mem[..]), mem[..], heap)
      ensures Joined(old(heap), i) < |heap.blocks| && first == heap.blocks[Joined(old(heap), i)].start
    {
      hide Quiet, Coded;
      ghost var h := heap;
      JoinBackKeeps(h, i);
      ReadWhole(mem[..], h, i);
      if i > 0 { ReadWhole(mem[..], h, i - 1); }
      hide Encodes, WellFormed;
      first := b;
      if mem[b + PREVFREE] != 0 {
        first := MergeBack(b, i);
      } else {
        AppendFree(b, i);
      }
    }

    /** Releases a live buffer. */
    method Brel(buf: nat)
      requires Valid() && Live(heap, buf)
      modifies this, mem
      ensures Valid() && heap == Release(old(heap), buf)
      ensures Quiet(old(mem[..]), mem[..], heap)
    {
      hide Quiet, Coded, Encodes, WellFormed, Loose, FreeOnlyAfter, Release, JoinBack, JoinNext, Joined, Live, IndexOf;
      ghost var h, m := heap, mem[..];
      ghost var i := ReleaseReady(m, h, buf);
      var b := buf - HEADER;
      assert mem[b + BSIZE] < 0;
      assert mem[b - mem[b + BSIZE] + PREVFREE] == 0;
      b := JoinPrevious(b, i);
      ghost var m1 := mem[..];
      TakeNext(b, Joined(h, i));
      QuietFewer(m, m1, JoinBack(h, i), heap);
      QuietTrans(m, m1, mem[..], heap);
    }

    // -------------------------------------------------------------- bgetr

    /** Copy the first `n` payload bytes of `buf` to `nbuf` and release `buf`. */
    method MoveAndRelease(buf: nat, nbuf: nat, n: nat)
      requires Valid() && Live(heap, buf) && Live(heap, nbuf) && buf != nbuf
      requires n <= SizeAt(heap, buf) - HEADER && n <= SizeAt(heap, nbuf) - HEADER
      modifies this, mem
      ensures Valid() && heap == Release(old(heap), buf)
      ensures nbuf + n <= mem.Length && buf + n <= mem.Length
      ensures mem[nbuf..nbuf + n] == old(mem[buf..buf + n])
      ensures KeptBut(heap, old(mem[..]), mem[..], nbuf, nbuf - HEADER + old(SizeAt(heap, nbuf)))
    {
      ghost var h, m := heap, mem[..];
      BufferInside(m, h, buf);
      BufferInside(m, h, nbuf);
      LiveDisjoint(h, buf, nbuf);
      ReleaseSpares(h, buf, nbuf);
      KString.Memcpy(mem, nbuf, buf, n);
      ghost var m2 := mem[..];
      KString.CopiedApart(m, nbuf, buf, n);
      PayloadWrite(m, m2, h, nbuf);
      hide Encodes, WellFormed, Live;
      Brel(buf);
      forall c | nbuf <= c < nbuf + n ensures mem[c] == m2[c] {
        PayloadKept(heap, nbuf, c);
      }
      assert mem[nbuf..nbuf + n] == m2[nbuf..nbuf + n];
    }

    /** Resizes a buffer: a fresh one with the old contents, as far as both sizes go. */
    method Bgetr(buf: nat, size: int) returns (nbuf: nat)
      requires Valid() && 0 < size <= MAX_REQUEST && (buf == 0 || Live(heap, buf))
      modifies this, mem
      ensures Valid()
      ensures nbuf == 0 ==> Alloc(old(heap), size).1.None? && heap == old(heap) && mem[..] == old(mem[..])
      ensures nbuf != 0 ==> Alloc(old(heap), size).1 == Some(nbuf)
      ensures nbuf != 0 && buf == 0 ==> heap == Alloc(old(heap), size).0
      ensures nbuf != 0 && buf != 0 ==>
                Live(Alloc(old(heap), size).0, buf) && heap == Release(Alloc(old(heap), size).0, buf)
      ensures nbuf != 0 && buf != 0 ==>
                var z := old(SizeAt(heap, buf)) - 8; var n := if size < z then size else z;
                && 0 <= n && nbuf + n <= mem.Length && buf + n <= mem.Length
                && mem[nbuf..nbuf + n] == old(mem[buf..buf + n])
      ensures KeptBut(old(heap), old(mem[..]), mem[..],
                      buf, if buf == 0 then 0 else buf - HEADER + old(SizeAt(heap, buf)))
    {
      hide Encodes, WellFormed, Coded, Quiet, KeptBut, Kept, Live, Alloc, Release, IndexOf, SamePool;
      ghost var h0, m0 := heap, mem[..];
      nbuf := Bget(size);
      if nbuf == 0 {
        NothingLost(h0, m0, buf, if buf == 0 then 0 else buf - HEADER + SizeAt(h0, buf));
        return;
      }
      ghost var h1, m1 := heap, mem[..];
      EncodesWell(m0, h0);
      EncodesWell(m1, h1);
      AllocQuiet(h0, h1, m0, m1, size, nbuf);
      if buf == 0 {
        return;
      }
      ResizeReady(h0, h1, m0, m1, size, nbuf, buf);
      var osize := -mem[buf - HEADER + BSIZE];
      osize := osize - HEADER;
      assert osize > 0;
      var n := if size < osize then size else osize;
      MoveAndRelease(buf, nbuf, n);
      ResizeKeeps(h0, h1, nbuf, buf, m0, m1, mem[..]);
    }
  }
}

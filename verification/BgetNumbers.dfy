/** The heap in plain numbers: how many bytes a request takes, where its buffer lies, what is free
    before and after, and which words stand in memory. Headers take 8 bytes. */
module BgetNumbers {
  import opened Basics
  import opened BgetLayout
  import opened BgetSteps
  import opened BgetTheorems
  import opened BgetMemory

  /** A block of `n` bytes can hold a buffer of `request` bytes: a multiple of four with room for the header and the
      bytes, and, once free, for header and links. */
  predicate Holds(request: nat, n: nat) { n % 4 == 0 && n >= 16 && n >= request + 8 }

  /** `n` is the least such size. */
  ghost predicate Takes(request: nat, n: nat) {
    Holds(request, n) && forall m: nat :: Holds(request, m) ==> n <= m
  }

  /** The size sought is the least that can hold the request. */
  lemma NeedLeast(request: nat)
    ensures Takes(request, Need(request))
  {}

  lemma TakesNeed(request: nat, n: nat)
    requires Takes(request, n)
    ensures n == Need(request)
  {
    NeedLeast(request);
    assert Holds(request, n) && Holds(request, Need(request));
  }

  /** The free intervals, address and size, of a row of blocks. */
  function GapsOf(blocks: seq<Block>): set<(nat, nat)> {
    set i | 0 <= i < |blocks| && blocks[i].free :: (blocks[i].start, blocks[i].size)
  }

  function Gaps(h: Heap): set<(nat, nat)> { GapsOf(h.blocks) }

  // ---------------------------------------------------------------- bget

  lemma SplitGaps(h: Heap, k: nat, n: nat)
    requires CanCarve(h, k, n) && FreeSize(h, k) - n > 16
    ensures var a, x := h.free[k], FreeSize(h, k);
            && Gaps(Carve(h, k, n).0) == Gaps(h) - {(a, x)} + {(a, x - n)}
            && Carve(h, k, n).0.free == h.free && Carve(h, k, n).1 == a + x - n + 8
  {
    var g, i := Carve(h, k, n).0, Slot(h, k);
    var a, x := h.free[k], FreeSize(h, k);
    assert g.blocks[i] == Block(a, x - n, true) && !g.blocks[i + 1].free;
    forall s | s in Gaps(h) && s != (a, x) ensures s in Gaps(g) {
      var q :| 0 <= q < |h.blocks| && h.blocks[q].free && s == (h.blocks[q].start, h.blocks[q].size);
      assert g.blocks[if q < i then q else q + 1] == h.blocks[q];
    }
    forall s | s in Gaps(g) && s != (a, x - n) ensures s in Gaps(h) && s != (a, x) {
      var q :| 0 <= q < |g.blocks| && g.blocks[q].free && s == (g.blocks[q].start, g.blocks[q].size);
      var o := if q < i then q else q - 1;
      assert g.blocks[q] == h.blocks[o];
      if h.blocks[o].start == a { SameStart(h, o, i); }
    }
  }

  lemma WholeGaps(h: Heap, k: nat, n: nat)
    requires CanCarve(h, k, n) && FreeSize(h, k) - n <= 16
    ensures var a, x := h.free[k], FreeSize(h, k);
            && Gaps(Carve(h, k, n).0) == Gaps(h) - {(a, x)}
            && Carve(h, k, n).0.free == h.free[..k] + h.free[k + 1..] && Carve(h, k, n).1 == a + 8
  {
    var g, i := Carve(h, k, n).0, Slot(h, k);
    var a, x := h.free[k], FreeSize(h, k);
    forall s | s in Gaps(h) && s != (a, x) ensures s in Gaps(g) {
      var q :| 0 <= q < |h.blocks| && h.blocks[q].free && s == (h.blocks[q].start, h.blocks[q].size);
      assert g.blocks[q] == h.blocks[q];
    }
    forall s | s in Gaps(g) ensures s in Gaps(h) && s != (a, x) {
      var q :| 0 <= q < |g.blocks| && g.blocks[q].free && s == (g.blocks[q].start, g.blocks[q].size);
      assert g.blocks[q] == h.blocks[q];
      if h.blocks[q].start == a { SameStart(h, q, i); }
    }
  }

  /** A request fails exactly if every free block is smaller than what it takes. */
  lemma AllocFails(h: Heap, request: nat, n: nat)
    requires WellFormed(h) && Takes(request, n)
    ensures Alloc(h, request).1.None? <==> forall g :: g in Gaps(h) ==> g.1 < n
  {
    TakesNeed(request, n);
    BestFitExact(h, request);
    if Alloc(h, request).1.None? {
      forall g | g in Gaps(h) ensures g.1 < n {
        var i :| 0 <= i < |h.blocks| && h.blocks[i].free && g == (h.blocks[i].start, h.blocks[i].size);
        assert Covered(h, i);
        var k :| 0 <= k < |h.free| && h.free[k] == h.blocks[i].start;
        SameStart(h, Slot(h, k), i);
        assert !Fits(h, n, k);
      }
    } else {
      var k: nat :| FirstSmallest(h, n, k, |h.free|);
      assert (h.free[k], FreeSize(h, k)) in Gaps(h);
    }
  }

  /** What a request that takes `n` bytes comes to. The first smallest free block that fits, of `x` bytes
      at `a`, keeps its first `x - n` bytes free if these are more than 16, and the buffer is in its last `n`
      bytes; otherwise all of it is taken. */
  lemma AllocExact(h: Heap, request: nat, n: nat) returns (k: nat)
    requires WellFormed(h) && Takes(request, n) && Alloc(h, request).1.Some?
    ensures k < |h.free| && FreeAt(h, h.free[k]) && FirstSmallest(h, n, k, |h.free|)
    ensures var (g, p) := (Alloc(h, request).0, Alloc(h, request).1.value);
            var a, x := h.free[k], FreeSize(h, k);
            if x - n > 16 then
              && p == a + x - n + 8 && g.free == h.free
              && Spans(g) == Spans(h) + {(a + x - n, n)} && Gaps(g) == Gaps(h) - {(a, x)} + {(a, x - n)}
            else
              && p == a + 8 && g.free == h.free[..k] + h.free[k + 1..]
              && Spans(g) == Spans(h) + {(a, x)} && Gaps(g) == Gaps(h) - {(a, x)}
  {
    TakesNeed(request, n);
    NeedBounds(request);
    BestFitsAt(h, n, |h.free|);
    k := BestOf(h, n, |h.free|).value;
    ScanExact(h, n, |h.free|);
    hide Gaps, Spans, Carve, BestOf, Slot, Listed, Loose;
    if FreeSize(h, k) - n > 16 {
      SplitGaps(h, k, n);
      SplitSpans(h, k, n);
    } else {
      WholeGaps(h, k, n);
      WholeSpans(h, k, n);
    }
  }

  /** A fresh pool is one gap. */
  lemma FreshGap(anchor: nat, base: nat, len: nat)
    requires anchor > 0 && anchor % 4 == 0 && anchor + 16 <= base && base % 4 == 0 && len % 4 == 0 && len >= 24
    ensures var h := Fresh(anchor, base, len);
            && WellFormed(h) && h.free == [base] && Gaps(h) == {(base, len - 8)}
            && FreeAt(h, h.free[0]) && FreeSize(h, 0) == len - 8
  {
    var h := Fresh(anchor, base, len);
    assert h.blocks[0] == Block(base, len - 8, true);
    assert BlockOk(h, 0) && Covered(h, 0) && FreeAt(h, h.free[0]) && Slot(h, 0) == 0;
  }

  /** The first request to a pool of `len` bytes at `base`. */
  lemma FirstRequest(anchor: nat, base: nat, len: nat, request: nat, n: nat)
    requires anchor > 0 && anchor % 4 == 0 && anchor + 16 <= base && base % 4 == 0 && len % 4 == 0 && len >= 24
    requires Takes(request, n)
    ensures WellFormed(Fresh(anchor, base, len))
    ensures Alloc(Fresh(anchor, base, len), request).1
              == if n > len - 8 then None else if len - 8 - n > 16 then Some(base + (len - 8 - n) + 8) else Some(base + 8)
  {
    var h := Fresh(anchor, base, len);
    FreshGap(anchor, base, len);
    hide Fresh, Alloc, Takes, Gaps, FreeSize, Spans, Slot, Fits;
    AllocFails(h, request, n);
    if Alloc(h, request).1.Some? {
      var k := AllocExact(h, request, n);
      assert k == 0;
    } else {
      assert (base, (len - 8) as nat) in Gaps(h);
    }
  }

  /** Eleven bytes of the kernel's two megabytes: twenty at the end of the pool. */
  lemma ElevenBytes(anchor: nat, base: nat)
    requires anchor > 0 && anchor % 4 == 0 && anchor + 16 <= base && base % 4 == 0
    ensures WellFormed(Fresh(anchor, base, 0x20_0000)) && Alloc(Fresh(anchor, base, 0x20_0000), 11).1 == Some(base + 0x1F_FFF8 - 12)
  {
    NeedLeast(11);
    assert Need(11) == 20;
    FirstRequest(anchor, base, 0x20_0000, 11, 20);
  }

  // ---------------------------------------------------------------- brel

  /** The free block, if any, that ends where block `i` begins. */
  ghost function Before(h: Heap, i: nat): set<(nat, nat)>
    requires i < |h.blocks|
  {
    set g | g in Gaps(h) && g.0 + g.1 == h.blocks[i].start
  }

  /** The free block, if any, that begins where block `i` ends. */
  ghost function Behind(h: Heap, i: nat): set<(nat, nat)>
    requires i < |h.blocks|
  {
    set g | g in Gaps(h) && g.0 == h.blocks[i].start + h.blocks[i].size
  }

  lemma BeforeIs(h: Heap, i: nat)
    requires WellFormed(h) && i < |h.blocks|
    ensures Before(h, i) == if i > 0 && h.blocks[i - 1].free then {(h.blocks[i - 1].start, h.blocks[i - 1].size)} else {}
  {
    ApartAll(h);
    assert BlockOk(h, i);
    if i > 0 { assert BlockOk(h, i - 1); }
    forall g | g in Before(h, i) ensures i > 0 && h.blocks[i - 1].free && g == (h.blocks[i - 1].start, h.blocks[i - 1].size) {
      var q :| 0 <= q < |h.blocks| && h.blocks[q].free && g == (h.blocks[q].start, h.blocks[q].size);
      assert BlockOk(h, q);
    }
  }

  lemma BehindIs(h: Heap, i: nat)
    requires WellFormed(h) && i < |h.blocks|
    ensures Behind(h, i) == if i + 1 < |h.blocks| && h.blocks[i + 1].free then {(h.blocks[i + 1].start, h.blocks[i + 1].size)} else {}
  {
    assert BlockOk(h, i);
    forall g | g in Behind(h, i) ensures i + 1 < |h.blocks| && h.blocks[i + 1].free && g == (h.blocks[i + 1].start, h.blocks[i + 1].size) {
      var q :| 0 <= q < |h.blocks| && h.blocks[q].free && g == (h.blocks[q].start, h.blocks[q].size);
      assert BlockOk(h, q);
      if q < i { Apart(h, q, i); }
      if q > i { SameStart(h, q, i + 1); }
    }
  }

  lemma ThreeParts(b: seq<Block>, lo: nat, hi: nat)
    requires lo < hi <= |b|
    ensures GapsOf(b) == GapsOf(b[..lo]) + GapsOf(b[lo..hi]) + GapsOf(b[hi..])
  {
    hide GapsOf;
    GapsJoin(b[..lo], b[lo..hi]);
    GapsJoin(b[..hi], b[hi..]);
    assert b[..lo] + b[lo..hi] == b[..hi] && b[..hi] + b[hi..] == b;
  }

  lemma {:induction false} GapAt(b: seq<Block>, g: (nat, nat)) returns (q: nat)
    requires g in GapsOf(b)
    ensures q < |b| && b[q].start == g.0
  {
    q :| 0 <= q < |b| && b[q].free && g == (b[q].start, b[q].size);
  }

  lemma BlocksApart(h: Heap, lo: nat, hi: nat)
    requires Tiled(h) && lo < hi <= |h.blocks|
    ensures GapsOf(h.blocks) == GapsOf(h.blocks[..lo]) + GapsOf(h.blocks[lo..hi]) + GapsOf(h.blocks[hi..])
    ensures GapsOf(h.blocks[lo..hi]) !! GapsOf(h.blocks[..lo]) + GapsOf(h.blocks[hi..])
  {
    hide GapsOf, Tiled;
    ThreeParts(h.blocks, lo, hi);
    forall g | g in GapsOf(h.blocks[lo..hi]) ensures g !in GapsOf(h.blocks[..lo]) && g !in GapsOf(h.blocks[hi..]) {
      var q := GapAt(h.blocks[lo..hi], g);
      if g in GapsOf(h.blocks[..lo]) {
        var r := GapAt(h.blocks[..lo], g);
        SameStart(h, lo + q, r);
      }
      if g in GapsOf(h.blocks[hi..]) {
        var r := GapAt(h.blocks[hi..], g);
        SameStart(h, lo + q, hi + r);
      }
    }
  }

  lemma GapsJoin(a: seq<Block>, b: seq<Block>)
    ensures GapsOf(a + b) == GapsOf(a) + GapsOf(b)
  {
    var c := a + b;
    forall g | g in GapsOf(a) ensures g in GapsOf(c) {
      var i :| 0 <= i < |a| && a[i].free && g == (a[i].start, a[i].size);
      assert c[i] == a[i];
    }
    forall g | g in GapsOf(b) ensures g in GapsOf(c) {
      var i :| 0 <= i < |b| && b[i].free && g == (b[i].start, b[i].size);
      assert c[|a| + i] == b[i];
    }
  }

  /** Whether the block before, or behind, block `i` is free. */
  predicate LeftFree(h: Heap, i: nat) { 0 < i <= |h.blocks| && h.blocks[i - 1].free }

  predicate RightFree(h: Heap, i: nat) { i + 1 < |h.blocks| && h.blocks[i + 1].free }

  /** The first block that the release of block `i` joins, and the one behind the last. */
  function Lo(h: Heap, i: nat): nat { if LeftFree(h, i) then i - 1 else i }

  function Hi(h: Heap, i: nat): nat { if RightFree(h, i) then i + 2 else i + 1 }

  lemma Bounds(h: Heap, i: nat)
    requires WellFormed(h) && i < |h.blocks| && !h.blocks[i].free
    ensures Lo(h, i) <= i < Hi(h, i) <= |h.blocks|
    ensures var start, stop := h.blocks[Lo(h, i)].start, h.blocks[Hi(h, i) - 1].Stop(); var x := h.blocks[i];
            && start <= x.start && x.Stop() <= stop && Before(h, i) == (if start == x.start then {} else {(start, (x.start - start) as nat)})
            && Behind(h, i) == (if stop == x.Stop() then {} else {(x.Stop(), (stop - x.Stop()) as nat)})
            && (LeftFree(h, i) <==> start != x.start) && (RightFree(h, i) <==> stop != x.Stop())
  {
    BeforeIs(h, i);
    BehindIs(h, i);
    hide Before, Behind;
    assert BlockOk(h, i);
    if i > 0 { assert BlockOk(h, i - 1); }
    if i + 1 < |h.blocks| { assert BlockOk(h, i + 1); }
  }

  lemma BackBlocks(h: Heap, i: nat)
    requires WellFormed(h) && i < |h.blocks| && !h.blocks[i].free
    ensures var b, j := JoinBack(h, i), if LeftFree(h, i) then i - 1 else i; var x, start := h.blocks[i], h.blocks[j].start;
            && j == Joined(h, i) && start <= x.start
            && b.blocks == h.blocks[..j] + [Block(start, x.start + x.size - start, true)] + h.blocks[i + 1..]
            && b.free == h.free + (if LeftFree(h, i) then [] else [x.start])
  {
    hide Listed, NoAdjacentFree;
    assert BlockOk(h, i);
    if i > 0 { assert BlockOk(h, i - 1); }
    var b, j := JoinBack(h, i), Joined(h, i);
    assert b.blocks == b.blocks[..j] + [b.blocks[j]] + b.blocks[j + 1..];
  }

  lemma NextBlocks(b: Heap, j: nat, pre: seq<Block>, y: Block, post: seq<Block>)
    requires b.blocks == pre + [y] + post && j == |pre| && y.free
    ensures JoinNext(b, j) == if post != [] && post[0].free
                              then b.(blocks := pre + [Block(y.start, y.size + post[0].size, true)] + post[1..], free := Without(b.free, post[0].start))
                              else b
  {
    assert b.blocks[..j] == pre && b.blocks[j] == y && b.blocks[j + 1..] == post;
    if post != [] { assert b.blocks[j + 1] == post[0] && b.blocks[j + 2..] == post[1..]; }
  }

  /** The block that takes in block `i` and its free neighbours, and the free list after the release. */
  lemma ReleaseBlocks(h: Heap, i: nat)
    requires WellFormed(h) && i < |h.blocks| && !h.blocks[i].free
    ensures Lo(h, i) <= i < Hi(h, i) <= |h.blocks|
    ensures var n := ReleaseBlock(h, i); var x := h.blocks[i];
            var start, stop := h.blocks[Lo(h, i)].start, h.blocks[Hi(h, i) - 1].Stop();
            && start <= x.start && x.Stop() <= stop
            && n.blocks == h.blocks[..Lo(h, i)] + [Block(start, stop - start, true)] + h.blocks[Hi(h, i)..]
            && n.free == var f := h.free + (if LeftFree(h, i) then [] else [x.start]); if RightFree(h, i) then Without(f, x.Stop()) else f
  {
    assert BlockOk(h, i);
    if i + 1 < |h.blocks| { assert BlockOk(h, i + 1); }
    BackBlocks(h, i);
    hide WellFormed, JoinBack, JoinNext;
    var x, j, post := h.blocks[i], Joined(h, i), h.blocks[i + 1..];
    NextBlocks(JoinBack(h, i), j, h.blocks[..j], Block(h.blocks[j].start, x.start + x.size - h.blocks[j].start, true), post);
    if i + 1 < |h.blocks| { assert post[0] == h.blocks[i + 1] && post[1..] == h.blocks[i + 2..]; }
  }

  lemma SetSwap<T>(a: set<T>, m: set<T>, c: set<T>, y: set<T>, l: set<T>, r: set<T>)
    requires m !! a + c && m == l + r
    ensures a + y + c == a + m + c - l - r + y
  {}

  /** The gaps after the release of block `i`. */
  lemma ReleaseGaps(h: Heap, i: nat)
    requires WellFormed(h) && i < |h.blocks| && !h.blocks[i].free
    ensures Lo(h, i) <= i < Hi(h, i) <= |h.blocks|
    ensures var start, stop := h.blocks[Lo(h, i)].start, h.blocks[Hi(h, i) - 1].Stop();
            start <= stop && Gaps(ReleaseBlock(h, i)) == Gaps(h) - Before(h, i) - Behind(h, i) + {(start, (stop - start) as nat)}
  {
    hide *;
    ReleaseBlocks(h, i);
    var lo, hi := Lo(h, i), Hi(h, i);
    var start, stop := h.blocks[lo].start, h.blocks[hi - 1].Stop();
    TiledIs(h);
    BlocksApart(h, lo, hi);
    MiddleGaps(h, i);
    assert start <= stop by { Bounds(h, i); BlockStops(h.blocks[i]); }
    var y := Block(start, stop - start, true);
    GapsJoin(h.blocks[..lo], [y]);
    GapsJoin(h.blocks[..lo] + [y], h.blocks[hi..]);
    OneGap(y);
    SetSwap(GapsOf(h.blocks[..lo]), GapsOf(h.blocks[lo..hi]), GapsOf(h.blocks[hi..]), GapsOf([y]), Before(h, i), Behind(h, i));
    GapsAre(h);
    GapsAre(ReleaseBlock(h, i));
  }

  lemma TiledIs(h: Heap)
    requires WellFormed(h)
    ensures Tiled(h)
  {}

  lemma BlockStops(x: Block)
    ensures x.start <= x.Stop() == x.start + x.size
  {}

  lemma GapsAre(h: Heap)
    ensures Gaps(h) == GapsOf(h.blocks)
  {}

  /** What releasing the buffer at `p`, a block of `z` bytes at `p - 8`, comes to: it grows over the free blocks
      on both sides and is one gap with them. If nothing free lies before it, it is last in the free list; what was
      free behind it leaves the list. */
  lemma ReleaseExact(h: Heap, p: nat) returns (i: nat, start: nat, stop: nat)
    requires WellFormed(h) && Live(h, p)
    ensures p >= 8 && i < |h.blocks| && h.blocks[i] == Block(p - 8, SizeAt(h, p), false)
    ensures start <= p - 8 && Before(h, i) == if start == p - 8 then {} else {(start, (p - 8 - start) as nat)}
    ensures var end := p - 8 + SizeAt(h, p); end <= stop && Behind(h, i) == if stop == end then {} else {(end, (stop - end) as nat)}
    ensures Gaps(Release(h, p)) == Gaps(h) - Before(h, i) - Behind(h, i) + {(start, (stop - start) as nat)}
    ensures Release(h, p).free == var f := h.free + (if start == p - 8 then [p - 8] else []);
                                  if stop == p - 8 + SizeAt(h, p) then f else Without(f, p - 8 + SizeAt(h, p))
  {
    hide *;
    i := ReleaseWhich(h, p);
    ReleaseBlocks(h, i);
    ReleaseGaps(h, i);
    Bounds(h, i);
    BlockStops(h.blocks[i]);
    start, stop := h.blocks[Lo(h, i)].start, h.blocks[Hi(h, i) - 1].Stop();
  }

  lemma ReleaseWhich(h: Heap, p: nat) returns (i: nat)
    requires WellFormed(h) && Live(h, p)
    ensures p >= 8 && i < |h.blocks| && h.blocks[i] == Block(p - 8, SizeAt(h, p), false) && Release(h, p) == ReleaseBlock(h, i)
  {
    i := IndexOf(h, p - 8);
    IndexUnique(h, i);
  }

  lemma OneGap(x: Block)
    requires x.free
    ensures GapsOf([x]) == {(x.start, x.size)}
  {
    assert [x][0] == x;
  }

  lemma MiddleGaps(h: Heap, i: nat)
    requires WellFormed(h) && i < |h.blocks| && !h.blocks[i].free && Lo(h, i) <= Hi(h, i) <= |h.blocks|
    ensures GapsOf(h.blocks[Lo(h, i)..Hi(h, i)]) == Before(h, i) + Behind(h, i)
  {
    var lo, hi := Lo(h, i), Hi(h, i);
    BeforeIs(h, i);
    BehindIs(h, i);
    hide Before, Behind;
    var m := h.blocks[lo..hi];
    assert m[i - lo] == h.blocks[i];
    if lo < i { assert m[0] == h.blocks[i - 1]; }
    if i + 1 < hi { assert m[i + 1 - lo] == h.blocks[i + 1]; }
  }

  // ---------------------------------------------------------------- the words in memory

  /** The words of a block: its size at offset 4, negative while it is live; at offset 0 of the header behind it
      its size if it is free, else 0. The sentinel's size is the least number of 32 bits. */
  lemma HeaderWords(m: seq<int>, h: Heap, i: nat)
    requires Encodes(m, h) && i < |h.blocks|
    ensures var x := h.blocks[i];
            && x.Stop() <= h.end && h.end + 8 <= |m| && x.size <= h.end - h.base
            && m[x.start + 4] == (if x.free then x.size else -(x.size as int))
            && m[x.Stop()] == (if x.free then x.size else 0)
            && m[h.end + 4] == -0x8000_0000
  {
    ApartAll(h);
    assert BlockOk(h, i);
    assert SizeOk(m, h, i) && PrevOk(m, h, i + 1) && SizeOk(m, h, |h.blocks|);
  }

  /** The links of a free block: forward at offset 8, back at offset 12; the first's back link and the last's forward link
      name the static head, whose own links name the first and the last. */
  lemma LinkWords(m: seq<int>, h: Heap, k: nat)
    requires Encodes(m, h) && k < |h.free|
    ensures h.free[k] + 16 <= |m| && h.anchor + 16 <= |m|
    ensures m[h.free[k] + 8] == (if k + 1 < |h.free| then h.free[k + 1] else h.anchor)
    ensures m[h.free[k] + 12] == (if k > 0 then h.free[k - 1] else h.anchor)
    ensures m[h.anchor + 8] == h.free[0] && m[h.anchor + 12] == h.free[|h.free| - 1]
  {
    assert LinkOk(m, h, k) && LinkOk(m, h, k + 1) && LinkOk(m, h, 0) && LinkOk(m, h, |h.free|);
  }

  /** The words of a fresh pool of `len` bytes at `base`. */
  lemma PoolWords(m: seq<int>, anchor: nat, base: nat, len: nat)
    requires len >= 24 && Encodes(m, Fresh(anchor, base, len))
    ensures anchor + 16 <= base && base + len <= |m|
    ensures m[base] == 0 && m[base + 4] == len - 8 && m[base + len - 8] == len - 8 && m[base + len - 4] == -0x8000_0000
    ensures m[base + 8] == m[base + 12] == anchor && m[anchor + 8] == m[anchor + 12] == base
  {
    var h := Fresh(anchor, base, len);
    HeaderWords(m, h, 0);
    LinkWords(m, h, 0);
    assert PrevOk(m, h, 0);
  }
}

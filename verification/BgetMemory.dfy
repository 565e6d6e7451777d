/** How the heap lies in memory: boundary tags in the block headers and a circular
    doubly linked free list threaded through the free blocks.
    Memory has one cell per byte; a 32-bit word is kept whole in the cell of its first byte,
    and storing a word overwrites all four of its cells. */
module BgetMemory {
  import opened BgetLayout

  const PREVFREE: nat := 0
  const BSIZE: nat := 4
  const FLINK: nat := 8
  const BLINK: nat := 12
  const WORD: nat := 4
  const ESENT: int := -0x8000_0000

  /** `r` is `m` after storing word `v` at `a`. */
  ghost predicate Stored(m: seq<int>, a: nat, v: int, r: seq<int>) {
    && a + WORD <= |m| == |r|
    && r[a] == v && r[a + 1] == 0 && r[a + 2] == 0 && r[a + 3] == 0
    && forall c {:trigger r[c]} :: 0 <= c < |m| && !(a <= c < a + WORD) ==> r[c] == m[c]
  }

  ghost function Store(m: seq<int>, a: nat, v: int): (r: seq<int>)
    requires a + WORD <= |m|
    ensures Stored(m, a, v, r)
  {
    assert Stored(m, a, v, m[a := v][a + 1 := 0][a + 2 := 0][a + 3 := 0]);
    var r :| Stored(m, a, v, r);
    r
  }

  lemma StoredIsStore(m: seq<int>, a: nat, v: int, r: seq<int>)
    requires Stored(m, a, v, r)
    ensures r == Store(m, a, v)
  {
    var s := Store(m, a, v);
    forall c | 0 <= c < |m| ensures r[c] == s[c] {
    }
  }

  /** Node 0 and node |free| + 1 are the static list head; the free blocks lie between. */
  function Node(h: Heap, i: nat): nat
    requires i <= |h.free| + 1
  {
    if i == 0 || i == |h.free| + 1 then h.anchor else h.free[i - 1]
  }

  function Tag(b: Block): int { if b.free then b.size else -(b.size as int) }

  function PrevTag(h: Heap, i: nat): int
    requires i <= |h.blocks|
  {
    if i > 0 && h.blocks[i - 1].free then h.blocks[i - 1].size else 0
  }

  predicate InBounds(m: seq<int>, h: Heap) {
    && Placed(h) && Tiled(h)
    && h.end + HEADER <= |m|
  }

  ghost predicate SizeOk(m: seq<int>, h: Heap, i: nat)
    requires InBounds(m, h) && i <= |h.blocks|
  {
    HeadAt(h, i) + HEADER <= |m| && m[HeadAt(h, i) + BSIZE] == if i < |h.blocks| then Tag(h.blocks[i]) else ESENT
  }

  ghost predicate PrevOk(m: seq<int>, h: Heap, i: nat)
    requires InBounds(m, h) && i <= |h.blocks|
  {
    HeadAt(h, i) + HEADER <= |m| && m[HeadAt(h, i) + PREVFREE] == PrevTag(h, i)
  }

  ghost predicate LinkOk(m: seq<int>, h: Heap, i: nat)
    requires InBounds(m, h) && i <= |h.free|
  {
    && Node(h, i) + MIN_BLOCK <= |m| && Node(h, i + 1) + MIN_BLOCK <= |m|
    && m[Node(h, i) + FLINK] == Node(h, i + 1)
    && m[Node(h, i + 1) + BLINK] == Node(h, i)
  }

  /** All tags are right, except possibly the sizes in `sizeHoles` and back tags in `prevHoles`. */
  ghost predicate TagsOk(m: seq<int>, h: Heap, sizeHoles: set<int>, prevHoles: set<int>) {
    && InBounds(m, h)
    && Listed(h)
    && (forall i :: 0 <= i <= |h.blocks| && i !in sizeHoles ==> SizeOk(m, h, i))
    && (forall i :: 0 <= i <= |h.blocks| && i !in prevHoles ==> PrevOk(m, h, i))
  }

  ghost predicate LinksOk(m: seq<int>, h: Heap) {
    && InBounds(m, h)
    && forall i :: 0 <= i <= |h.free| ==> LinkOk(m, h, i)
  }

  /** `m` encodes `h`, but for the back tags in `prevHoles`. */
  ghost predicate Coded(m: seq<int>, h: Heap, prevHoles: set<int>) {
    TagsOk(m, h, {}, prevHoles) && LinksOk(m, h)
  }

  /** Memory `m` encodes heap `h`. */
  ghost predicate Encodes(m: seq<int>, h: Heap) { WellFormed(h) && Coded(m, h, {}) }

  /** `c` is a payload byte of a live buffer. */
  ghost predicate InPayload(h: Heap, c: int) {
    exists i :: 0 <= i < |h.blocks| && !h.blocks[i].free && h.blocks[i].start + HEADER <= c < h.blocks[i].start + h.blocks[i].size
  }

  /** `c` lies outside the static list head and the pool. */
  predicate Outside(h: Heap, c: int) {
    !(h.anchor <= c < h.anchor + MIN_BLOCK) && !(h.base <= c < h.end + HEADER)
  }

  ghost predicate Kept(h: Heap, c: int) { InPayload(h, c) || Outside(h, c) }

  /** No payload byte live in `h`, and no byte outside its pool, differs between `m` and `n`. */
  ghost predicate Quiet(m: seq<int>, n: seq<int>, h: Heap) {
    && |m| == |n|
    && forall c {:trigger Kept(h, c)} :: 0 <= c < |m| && Kept(h, c) ==> n[c] == m[c]
  }

  // ---------------------------------------------------------------- separation

  lemma HeadsApart(h: Heap, i: nat, j: nat)
    requires Placed(h) && Tiled(h) && i < j <= |h.blocks|
    ensures HeadAt(h, i) + MIN_BLOCK <= HeadAt(h, j) <= h.end
    ensures h.base <= HeadAt(h, i) && h.anchor + MIN_BLOCK <= HeadAt(h, i)
  {
    assert BlockOk(h, i);
    Apart(h, i, j);
    if i > 0 { Apart(h, 0, i); }
    if j < |h.blocks| { Apart(h, j, |h.blocks|); }
  }

  lemma HeadIn(h: Heap, i: nat)
    requires Placed(h) && Tiled(h) && i <= |h.blocks|
    ensures h.base <= HeadAt(h, i) <= h.end && h.anchor + MIN_BLOCK <= HeadAt(h, i)
    ensures i < |h.blocks| ==> HeadAt(h, i) + MIN_BLOCK <= h.end
  {
    if i < |h.blocks| { HeadsApart(h, i, |h.blocks|); } else { HeadsApart(h, 0, i); }
  }

  /** A list node is the static head or a free block; its link words overlap no header. */
  lemma NodeClear(h: Heap, i: nat, q: nat)
    requires Placed(h) && Tiled(h) && Listed(h) && i <= |h.free| + 1 && q <= |h.blocks|
    ensures HeadAt(h, q) <= Node(h, i) || Node(h, i) + MIN_BLOCK <= HeadAt(h, q)
    ensures Node(h, i) == h.anchor || h.base <= Node(h, i)
    ensures Node(h, i) + MIN_BLOCK <= h.end
  {
    HeadIn(h, q);
    HeadIn(h, 0);
    if 0 < i <= |h.free| {
      var s := Slot(h, i - 1);
      HeadIn(h, s);
      if s < q { HeadsApart(h, s, q); } else if q < s { HeadsApart(h, q, s); }
    }
  }

  /** Two different nodes are a whole free header apart; only the two ends coincide. */
  lemma NodesApart(h: Heap, i: nat, j: nat)
    requires Placed(h) && Tiled(h) && Listed(h) && i < j <= |h.free| + 1
    ensures (i == 0 && j == |h.free| + 1) || Node(h, i) + MIN_BLOCK <= Node(h, j) || Node(h, j) + MIN_BLOCK <= Node(h, i)
  {
    if i == 0 {
      if j <= |h.free| { HeadIn(h, Slot(h, j - 1)); }
    } else if j == |h.free| + 1 {
      HeadIn(h, Slot(h, i - 1));
    } else {
      var s, t := Slot(h, i - 1), Slot(h, j - 1);
      assert h.free[i - 1] != h.free[j - 1];
      if s < t { HeadsApart(h, s, t); } else { HeadsApart(h, t, s); }
    }
  }

  /** Any two nodes coincide or are a whole free header apart. */
  lemma NodesSeparate(h: Heap, i: nat, j: nat)
    requires Placed(h) && Tiled(h) && Listed(h) && i <= |h.free| + 1 && j <= |h.free| + 1
    ensures Node(h, i) == Node(h, j) || Node(h, i) + MIN_BLOCK <= Node(h, j) || Node(h, j) + MIN_BLOCK <= Node(h, i)
  {
    if i < j { NodesApart(h, i, j); } else if j < i { NodesApart(h, j, i); }
  }

  lemma QuietTrans(a: seq<int>, b: seq<int>, c: seq<int>, h: Heap)
    requires Quiet(a, b, h) && Quiet(b, c, h)
    ensures Quiet(a, c, h)
  {
  }

  // ---------------------------------------------------------------- header stores

  lemma HeaderQuiet(m: seq<int>, h: Heap, q: nat, off: nat, v: int)
    requires InBounds(m, h) && q <= |h.blocks| && (off == PREVFREE || off == BSIZE)
    ensures HeadAt(h, q) + HEADER <= |m|
    ensures Quiet(m, Store(m, HeadAt(h, q) + off, v), h)
  {
    HeadIn(h, q);
    var n := Store(m, HeadAt(h, q) + off, v);
    forall c | 0 <= c < |m| && Kept(h, c) ensures n[c] == m[c] {
      if InPayload(h, c) {
        var t :| 0 <= t < |h.blocks| && !h.blocks[t].free && h.blocks[t].start + HEADER <= c < h.blocks[t].start + h.blocks[t].size;
        assert BlockOk(h, t);
        if t < q { Apart(h, t, q); } else if q < t { HeadsApart(h, q, t); }
      }
    }
  }

  lemma HeaderLinks(m: seq<int>, h: Heap, q: nat, off: nat, v: int)
    requires LinksOk(m, h) && Listed(h) && q <= |h.blocks| && (off == PREVFREE || off == BSIZE)
    ensures HeadAt(h, q) + HEADER <= |m|
    ensures LinksOk(Store(m, HeadAt(h, q) + off, v), h)
  {
    HeadIn(h, q);
    var n := Store(m, HeadAt(h, q) + off, v);
    forall i | 0 <= i <= |h.free| ensures LinkOk(n, h, i) {
      assert LinkOk(m, h, i);
      NodeClear(h, i, q);
      NodeClear(h, i + 1, q);
    }
  }

  /** Storing the right size tag into header `q`. */
  lemma FillSize(m: seq<int>, h: Heap, q: nat, v: int, sizeHoles: set<int>, prevHoles: set<int>)
    requires TagsOk(m, h, sizeHoles, prevHoles) && q <= |h.blocks|
    requires v == if q < |h.blocks| then Tag(h.blocks[q]) else ESENT
    ensures HeadAt(h, q) + HEADER <= |m|
    ensures TagsOk(Store(m, HeadAt(h, q) + BSIZE, v), h, sizeHoles - {q}, prevHoles)
    ensures Quiet(m, Store(m, HeadAt(h, q) + BSIZE, v), h)
    ensures LinksOk(m, h) ==> LinksOk(Store(m, HeadAt(h, q) + BSIZE, v), h)
  {
    HeaderQuiet(m, h, q, BSIZE, v);
    if LinksOk(m, h) { HeaderLinks(m, h, q, BSIZE, v); }
    var n := Store(m, HeadAt(h, q) + BSIZE, v);
    forall i | 0 <= i <= |h.blocks| && i !in sizeHoles - {q} ensures SizeOk(n, h, i) {
      if i < q { HeadsApart(h, i, q); } else if q < i { HeadsApart(h, q, i); }
      if i != q { assert SizeOk(m, h, i); }
    }
    forall i | 0 <= i <= |h.blocks| && i !in prevHoles ensures PrevOk(n, h, i) {
      if i < q { HeadsApart(h, i, q); } else if q < i { HeadsApart(h, q, i); }
      assert PrevOk(m, h, i);
    }
  }

  /** Storing the right back tag into header `q`. */
  lemma FillPrev(m: seq<int>, h: Heap, q: nat, v: int, sizeHoles: set<int>, prevHoles: set<int>)
    requires TagsOk(m, h, sizeHoles, prevHoles) && q <= |h.blocks| && v == PrevTag(h, q)
    ensures HeadAt(h, q) + HEADER <= |m|
    ensures TagsOk(Store(m, HeadAt(h, q) + PREVFREE, v), h, sizeHoles, prevHoles - {q})
    ensures Quiet(m, Store(m, HeadAt(h, q) + PREVFREE, v), h)
    ensures LinksOk(m, h) ==> LinksOk(Store(m, HeadAt(h, q) + PREVFREE, v), h)
  {
    HeaderQuiet(m, h, q, PREVFREE, v);
    if LinksOk(m, h) { HeaderLinks(m, h, q, PREVFREE, v); }
    var n := Store(m, HeadAt(h, q) + PREVFREE, v);
    forall i | 0 <= i <= |h.blocks| && i !in sizeHoles ensures SizeOk(n, h, i) {
      if i < q { HeadsApart(h, i, q); } else if q < i { HeadsApart(h, q, i); }
      assert SizeOk(m, h, i);
    }
    forall i | 0 <= i <= |h.blocks| && i !in prevHoles - {q} ensures PrevOk(n, h, i) {
      if i < q { HeadsApart(h, i, q); } else if q < i { HeadsApart(h, q, i); }
      if i != q { assert PrevOk(m, h, i); }
    }
  }

  // ---------------------------------------------------------------- link stores

  /** Storing into a link word of a list node leaves every tag alone. */
  lemma LinkStore(m: seq<int>, h: Heap, k: nat, off: nat, v: int, sizeHoles: set<int>, prevHoles: set<int>)
    requires TagsOk(m, h, sizeHoles, prevHoles) && k <= |h.free| + 1 && (off == FLINK || off == BLINK)
    ensures Node(h, k) + MIN_BLOCK <= |m|
    ensures TagsOk(Store(m, Node(h, k) + off, v), h, sizeHoles, prevHoles)
    ensures Quiet(m, Store(m, Node(h, k) + off, v), h)
  {
    NodeClear(h, k, 0);
    var n := Store(m, Node(h, k) + off, v);
    forall i | 0 <= i <= |h.blocks| && i !in sizeHoles ensures SizeOk(n, h, i) {
      assert SizeOk(m, h, i);
      NodeClear(h, k, i);
    }
    forall i | 0 <= i <= |h.blocks| && i !in prevHoles ensures PrevOk(n, h, i) {
      assert PrevOk(m, h, i);
      NodeClear(h, k, i);
    }
    forall c | 0 <= c < |m| && Kept(h, c) ensures n[c] == m[c] {
      if InPayload(h, c) {
        var t :| 0 <= t < |h.blocks| && !h.blocks[t].free && h.blocks[t].start + HEADER <= c < h.blocks[t].start + h.blocks[t].size;
        HeadIn(h, t);
        if 0 < k <= |h.free| {
          var f := Slot(h, k - 1);
          assert f != t;
          assert BlockOk(h, f);
          if t < f { Apart(h, t, f); } else { Apart(h, f, t); }
        }
      }
    }
  }
}

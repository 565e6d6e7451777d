/** Why a resize keeps what it should: payload writes do not disturb the encoding,
    and the copied bytes outlive the release of the old buffer. */
module BgetResize {
  import opened Basics
  import opened BgetLayout
  import opened BgetSteps
  import opened BgetTheorems
  import opened BgetMemory

  lemma LiveSpan(h: Heap, p: nat)
    requires WellFormed(h) && Live(h, p)
    ensures (p - HEADER, SizeAt(h, p)) in Spans(h)
    ensures !h.blocks[IndexOf(h, p - HEADER)].free
  {
    IndexUnique(h, IndexOf(h, p - HEADER));
  }

  /** A live buffer lies inside memory and its header tells its size. */
  lemma BufferInside(m: seq<int>, h: Heap, p: nat)
    requires Encodes(m, h) && Live(h, p)
    ensures h.base + HEADER <= p && p - HEADER + SizeAt(h, p) <= h.end && h.end + HEADER <= |m|
    ensures SizeAt(h, p) >= MIN_BLOCK && m[p - HEADER + BSIZE] == -(SizeAt(h, p) as int)
  {
    LiveSpan(h, p);
    var i := IndexOf(h, p - HEADER);
    HeadIn(h, i);
    Apart(h, i, |h.blocks|);
    assert SizeOk(m, h, i) && BlockOk(h, i);
  }

  /** `n` differs from `m` only in the payload of live buffer `p`. */
  ghost predicate OnlyPayload(m: seq<int>, n: seq<int>, h: Heap, p: nat)
    requires Live(h, p)
  {
    && |m| == |n|
    && forall c {:trigger n[c]} :: 0 <= c < |m| && !(p <= c < p - HEADER + SizeAt(h, p)) ==> n[c] == m[c]
  }

  /** Writing into the payload of a live buffer leaves the encoding as it is. */
  lemma PayloadWrite(m: seq<int>, n: seq<int>, h: Heap, p: nat)
    requires Encodes(m, h) && Live(h, p) && OnlyPayload(m, n, h, p)
    ensures Encodes(n, h)
  {
    LiveSpan(h, p);
    var i := IndexOf(h, p - HEADER);
    assert BlockOk(h, i);
    forall q | 0 <= q <= |h.blocks| ensures SizeOk(n, h, q) && PrevOk(n, h, q) {
      assert SizeOk(m, h, q) && PrevOk(m, h, q);
      if q < i { HeadsApart(h, q, i); } else if i < q { Apart(h, i, q); }
    }
    forall k | 0 <= k <= |h.free| ensures LinkOk(n, h, k) {
      assert LinkOk(m, h, k);
      NodeMisses(h, i, k);
      NodeMisses(h, i, k + 1);
    }
  }

  /** No list node overlaps a used block. */
  lemma NodeMisses(h: Heap, i: nat, k: nat)
    requires WellFormed(h) && i < |h.blocks| && !h.blocks[i].free && k <= |h.free| + 1
    ensures Node(h, k) + MIN_BLOCK <= h.blocks[i].start || h.blocks[i].Stop() <= Node(h, k)
  {
    HeadIn(h, i);
    if 0 < k <= |h.free| {
      var s := Slot(h, k - 1);
      assert BlockOk(h, s);
      if s < i { Apart(h, s, i); } else { Apart(h, i, s); }
    }
  }

  /** A buffer other than the released one stays live, with its size. */
  lemma ReleaseSpares(h: Heap, p: nat, q: nat)
    requires WellFormed(h) && Live(h, p) && Live(h, q) && p != q
    ensures WellFormed(Release(h, p)) && Live(Release(h, p), q) && SizeAt(Release(h, p), q) == SizeAt(h, q)
  {
    ReleaseKeeps(h, p);
    ReleaseSpans(h, p);
    LiveSpan(h, q);
    StaysLive(h, Release(h, p), q);
  }

  lemma PayloadKept(h: Heap, p: nat, c: int)
    requires WellFormed(h) && Live(h, p) && p <= c < p - HEADER + SizeAt(h, p)
    ensures Kept(h, c)
  {
    LiveSpan(h, p);
    assert InPayload(h, c);
  }

  /** A live buffer of the old heap, seen from the heap with one more buffer `p`. */
  lemma AllocSpares(h: Heap, n: Heap, p: nat, q: nat)
    requires WellFormed(h) && WellFormed(n) && Live(h, q) && !Live(h, p) && Live(n, p)
    requires Spans(n) == Spans(h) + {(p - HEADER, SizeAt(n, p))}
    ensures Live(n, q) && SizeAt(n, q) == SizeAt(h, q) && q != p
  {
    LiveSpan(h, q);
    StaysLive(h, n, q);
  }

  /** Kept bytes of the old heap that are not the old buffer's payload stay kept to the end,
      and lie outside the new buffer. */
  lemma KeptThrough(h: Heap, n: Heap, p: nat, q: nat, c: int)
    requires WellFormed(h) && WellFormed(n) && SamePool(h, n) && Live(h, q) && !Live(h, p) && Live(n, p)
    requires Spans(n) == Spans(h) + {(p - HEADER, SizeAt(n, p))}
    requires Kept(h, c) && !(q <= c < q - HEADER + SizeAt(h, q))
    ensures Live(n, q) && Kept(Release(n, q), c) && !(p <= c < p - HEADER + SizeAt(n, p))
  {
    AllocSpares(h, n, p, q);
    LiveDisjoint(n, p, q);
    ReleaseKeeps(n, q);
    ReleaseSpans(n, q);
    if InPayload(h, c) {
      var t :| 0 <= t < |h.blocks| && !h.blocks[t].free && h.blocks[t].start + HEADER <= c < h.blocks[t].start + h.blocks[t].size;
      var r := h.blocks[t].start + HEADER;
      IndexUnique(h, t);
      assert Live(h, r) && SizeAt(h, r) == h.blocks[t].size;
      AllocSpares(h, n, p, r);
      LiveDisjoint(n, p, r);
      ReleaseSpares(n, q, r);
      PayloadKept(Release(n, q), r, c);
    }
  }

  /** A quiet change leaves the contents of every live buffer alone. */
  lemma ContentsSame(m: seq<int>, n: seq<int>, h: Heap, p: nat, k: nat)
    requires WellFormed(h) && Live(h, p) && Quiet(m, n, h) && k <= SizeAt(h, p) - HEADER && p + k <= |m|
    ensures n[p..p + k] == m[p..p + k]
  {
    forall c | p <= c < p + k ensures n[c] == m[c] {
      PayloadKept(h, p, c);
    }
  }

  /** Every kept byte of `h` outside `lo..hi` is the same in `m` and `n`. */
  ghost predicate KeptBut(h: Heap, m: seq<int>, n: seq<int>, lo: int, hi: int) {
    && |m| == |n|
    && forall c {:trigger Kept(h, c)} :: 0 <= c < |m| && Kept(h, c) && !(lo <= c < hi) ==> n[c] == m[c]
  }

  lemma ResizeKeeps(h: Heap, n: Heap, p: nat, q: nat, m0: seq<int>, m1: seq<int>, m2: seq<int>)
    requires WellFormed(h) && WellFormed(n) && SamePool(h, n) && Live(h, q) && !Live(h, p) && Live(n, p) && Live(n, q)
    requires Spans(n) == Spans(h) + {(p - HEADER, SizeAt(n, p))}
    requires Quiet(m0, m1, h)
    requires KeptBut(Release(n, q), m1, m2, p, p - HEADER + SizeAt(n, p))
    ensures KeptBut(h, m0, m2, q, q - HEADER + SizeAt(h, q))
  {
    forall c | 0 <= c < |m0| && Kept(h, c) && !(q <= c < q - HEADER + SizeAt(h, q)) ensures m2[c] == m0[c] {
      KeptThrough(h, n, p, q, c);
    }
  }

  /** A change quiet for one layout is quiet for any layout of the pool with fewer live bytes. */
  lemma QuietFewer(m: seq<int>, n: seq<int>, h: Heap, g: Heap)
    requires Quiet(m, n, h) && SamePool(h, g) && Spans(g) <= Spans(h)
    ensures Quiet(m, n, g)
  {
    forall c | 0 <= c < |m| && Kept(g, c) ensures n[c] == m[c] {
      if InPayload(g, c) {
        var i :| 0 <= i < |g.blocks| && !g.blocks[i].free && g.blocks[i].start + HEADER <= c < g.blocks[i].start + g.blocks[i].size;
        assert (g.blocks[i].start, g.blocks[i].size) in Spans(h);
        assert InPayload(h, c);
      }
      assert Kept(h, c);
    }
  }

  function Min(a: int, b: int): int { if a < b then a else b }

  /** Memory and heap just before and after a successful request. */
  ghost predicate Granted(h: Heap, n: Heap, m0: seq<int>, m1: seq<int>, size: nat, p: nat) {
    && Encodes(m0, h) && Encodes(m1, n) && SamePool(h, n)
    && Alloc(h, size) == (n, Some(p))
    && Quiet(m0, m1, n)
  }

  lemma AllocQuiet(h: Heap, n: Heap, m0: seq<int>, m1: seq<int>, size: nat, p: nat)
    requires Granted(h, n, m0, m1, size, p)
    ensures Quiet(m0, m1, h) && KeptBut(h, m0, m1, 0, 0)
    ensures Live(n, p) && !Live(h, p) && size + HEADER <= SizeAt(n, p)
    ensures Spans(n) == Spans(h) + {(p - HEADER, SizeAt(n, p))}
  {
    AllocSpans(h, size);
    QuietFewer(m0, m1, n, h);
  }

  /** What a resize may rely on once the new buffer `p` is there: the old buffer `q` is
      still live, told apart from the new one, and unchanged. */
  lemma ResizeReady(h: Heap, n: Heap, m0: seq<int>, m1: seq<int>, size: nat, p: nat, q: nat)
    requires Granted(h, n, m0, m1, size, p) && Live(h, q)
    ensures Live(n, q) && Live(n, p) && p != q && SizeAt(n, q) == SizeAt(h, q)
    ensures SizeAt(h, q) >= MIN_BLOCK && q >= HEADER && q - HEADER + SizeAt(n, q) <= |m1|
    ensures m1[q - HEADER + BSIZE] == -(SizeAt(h, q) as int)
    ensures var k := Min(size, SizeAt(h, q) - HEADER); 0 <= k && q + k <= |m1| == |m0| && m1[q..q + k] == m0[q..q + k]
  {
    AllocQuiet(h, n, m0, m1, size, p);
    AllocSpares(h, n, p, q);
    BufferInside(m1, n, q);
    ContentsSame(m0, m1, h, q, Min(size, SizeAt(h, q) - HEADER));
  }

  lemma NothingLost(h: Heap, m: seq<int>, lo: int, hi: int)
    ensures KeptBut(h, m, m, lo, hi)
  {}

  lemma EncodesWell(m: seq<int>, h: Heap)
    requires Encodes(m, h)
    ensures WellFormed(h) && Listed(h)
  {}
}

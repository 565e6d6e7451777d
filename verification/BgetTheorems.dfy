/** What the heap promises over whole runs: exact best fit, a canonical layout
    determined by the live buffers alone, and full recovery of released space. */
module BgetTheorems {
  import opened Basics
  import opened BgetLayout
  import opened BgetSteps

  /** The live buffers as a plain set of (block address, block size) intervals. */
  function Spans(h: Heap): set<(nat, nat)> {
    set i | 0 <= i < |h.blocks| && !h.blocks[i].free :: (h.blocks[i].start, h.blocks[i].size)
  }

  ghost function SizeAt(h: Heap, p: nat): nat
    requires Live(h, p)
  {
    h.blocks[IndexOf(h, p - HEADER)].size
  }

  ghost function FreeSize(h: Heap, k: nat): nat
    requires k < |h.free| && FreeAt(h, h.free[k])
  {
    h.blocks[Slot(h, k)].size
  }

  // ---------------------------------------------------------------- best fit

  /** List entry `k` is the first among the smallest free blocks of at least `need` bytes. */
  ghost predicate FirstSmallest(h: Heap, need: nat, k: nat, upto: nat)
    requires Listed(h) && upto <= |h.free|
  {
    && k < upto
    && Fits(h, need, k)
    && (forall q :: 0 <= q < upto && Fits(h, need, q) ==>
          FreeSize(h, k) <= FreeSize(h, q) && (q < k ==> FreeSize(h, k) < FreeSize(h, q)))
  }

  lemma {:induction false} ScanExact(h: Heap, need: nat, k: nat)
    requires Listed(h) && k <= |h.free|
    ensures BestOf(h, need, k).None? <==> forall q :: 0 <= q < k ==> !Fits(h, need, q)
    ensures BestOf(h, need, k).Some? ==> FirstSmallest(h, need, BestOf(h, need, k).value, k)
  {
    if k > 0 { ScanExact(h, need, k - 1); }
  }

  /** `bget` fails exactly when no free block fits, and otherwise carves the first smallest one. */
  lemma BestFitExact(h: Heap, request: nat)
    requires WellFormed(h)
    ensures Alloc(h, request).1.None? <==> forall k :: 0 <= k < |h.free| ==> !Fits(h, Need(request), k)
    ensures Alloc(h, request).1.None? ==> Alloc(h, request).0 == h
    ensures Alloc(h, request).1.Some? ==>
              exists k :: FirstSmallest(h, Need(request), k, |h.free|)
                          && Alloc(h, request) == (Carve(h, k, Need(request)).0, Some(Carve(h, k, Need(request)).1))
  {
    var need := Need(request);
    ScanExact(h, need, |h.free|);
    BestFitsAt(h, need, |h.free|);
    if BestOf(h, need, |h.free|).Some? {
      var k := BestOf(h, need, |h.free|).value;
      assert FirstSmallest(h, need, k, |h.free|);
    }
  }

  // ---------------------------------------------------------------- live intervals

  lemma SplitSpans(h: Heap, k: nat, need: nat)
    requires CanCarve(h, k, need) && h.blocks[Slot(h, k)].size - need > SIZE_Q + HEADER
    ensures var (n, p) := Carve(h, k, need);
            Live(n, p) && SizeAt(n, p) == need && Spans(n) == Spans(h) + {(p - HEADER, need)}
  {
    var (n, p) := Carve(h, k, need);
    var i := Slot(h, k);
    SplitKeeps(h, k, need);
    assert n.blocks[i + 1] == Block(p - HEADER, need, false);
    IndexUnique(n, i + 1);
    forall s | s in Spans(h) ensures s in Spans(n) {
      var q :| 0 <= q < |h.blocks| && !h.blocks[q].free && s == (h.blocks[q].start, h.blocks[q].size);
      assert n.blocks[if q < i then q else q + 1] == h.blocks[q];
    }
    forall s | s in Spans(n) ensures s in Spans(h) + {(p - HEADER, need)} {
      var q :| 0 <= q < |n.blocks| && !n.blocks[q].free && s == (n.blocks[q].start, n.blocks[q].size);
      assert q == i + 1 || n.blocks[q] == h.blocks[if q < i then q else q - 1];
    }
  }

  lemma WholeSpans(h: Heap, k: nat, need: nat)
    requires CanCarve(h, k, need) && h.blocks[Slot(h, k)].size - need <= SIZE_Q + HEADER
    ensures var (n, p) := Carve(h, k, need);
            && Live(n, p) && SizeAt(n, p) == h.blocks[Slot(h, k)].size
            && Spans(n) == Spans(h) + {(p - HEADER, h.blocks[Slot(h, k)].size)}
  {
    var (n, p) := Carve(h, k, need);
    var i := Slot(h, k);
    WholeKeeps(h, k, need);
    assert n.blocks[i] == Block(p - HEADER, h.blocks[i].size, false);
    IndexUnique(n, i);
    forall s | s in Spans(h) ensures s in Spans(n) {
      var q :| 0 <= q < |h.blocks| && !h.blocks[q].free && s == (h.blocks[q].start, h.blocks[q].size);
      assert n.blocks[q] == h.blocks[q];
    }
    forall s | s in Spans(n) ensures s in Spans(h) + {(p - HEADER, h.blocks[i].size)} {
      var q :| 0 <= q < |n.blocks| && !n.blocks[q].free && s == (n.blocks[q].start, n.blocks[q].size);
      assert q == i || n.blocks[q] == h.blocks[q];
    }
  }

  /** The carved buffer is new: no live block starts there. */
  lemma CarvedIsNew(h: Heap, k: nat, need: nat)
    requires CanCarve(h, k, need)
    ensures !Live(h, Carve(h, k, need).1)
  {
    var a := Carve(h, k, need).1 - HEADER;
    var i := Slot(h, k);
    assert BlockOk(h, i);
    ApartAll(h);
    forall q | 0 <= q < |h.blocks| && q != i ensures h.blocks[q].start != a {
      if q < i {
        assert h.blocks[q].start + h.blocks[q].size <= h.blocks[i].start <= a;
        assert BlockOk(h, q);
      } else {
        assert a < h.blocks[i].start + h.blocks[i].size <= h.blocks[q].start;
      }
    }
  }

  lemma CarveSpans(h: Heap, k: nat, need: nat)
    requires CanCarve(h, k, need)
    ensures var (n, p) := Carve(h, k, need);
            && Live(n, p) && !Live(h, p)
            && need <= SizeAt(n, p) <= need + SIZE_Q + HEADER
            && Spans(n) == Spans(h) + {(p - HEADER, SizeAt(n, p))}
  {
    CarvedIsNew(h, k, need);
    if h.blocks[Slot(h, k)].size - need > SIZE_Q + HEADER {
      SplitSpans(h, k, need);
    } else {
      WholeSpans(h, k, need);
    }
  }

  /** A successful request adds one new live interval with room for it, and nothing else. */
  lemma AllocSpans(h: Heap, request: nat)
    requires WellFormed(h) && Alloc(h, request).1.Some?
    ensures var (n, p) := (Alloc(h, request).0, Alloc(h, request).1.value);
            && Live(n, p) && !Live(h, p)
            && request + 8 <= Need(request) <= SizeAt(n, p) <= Need(request) + 16
            && Spans(n) == Spans(h) + {(p - 8, SizeAt(n, p))}
  {
    NeedBounds(request);
    BestFitsAt(h, Need(request), |h.free|);
    CarveSpans(h, BestOf(h, Need(request), |h.free|).value, Need(request));
  }

  lemma JoinBackSpans(h: Heap, i: nat)
    requires WellFormed(h) && i < |h.blocks| && !h.blocks[i].free
    ensures Spans(JoinBack(h, i)) == Spans(h) - {(h.blocks[i].start, h.blocks[i].size)}
  {
    var n := JoinBack(h, i);
    var x := h.blocks[i];
    var merged := i > 0 && h.blocks[i - 1].free;
    forall s | s in Spans(h) && s != (x.start, x.size) ensures s in Spans(n) {
      var q :| 0 <= q < |h.blocks| && !h.blocks[q].free && s == (h.blocks[q].start, h.blocks[q].size);
      var t := if merged && q > i then q - 1 else q;
      assert n.blocks[t] == h.blocks[q];
    }
    forall s | s in Spans(n) ensures s in Spans(h) && s != (x.start, x.size) {
      var q :| 0 <= q < |n.blocks| && !n.blocks[q].free && s == (n.blocks[q].start, n.blocks[q].size);
      var o := if merged && q > i - 1 then q + 1 else q;
      assert n.blocks[q] == h.blocks[o];
      if h.blocks[o].start == x.start { SameStart(h, o, i); }
    }
  }

  lemma JoinNextSpans(h: Heap, j: nat)
    requires Loose(h) && j < |h.blocks| && h.blocks[j].free
    ensures Spans(JoinNext(h, j)) == Spans(h)
  {
    var n := JoinNext(h, j);
    if j + 1 < |h.blocks| && h.blocks[j + 1].free {
      forall s | s in Spans(h) ensures s in Spans(n) {
        var q :| 0 <= q < |h.blocks| && !h.blocks[q].free && s == (h.blocks[q].start, h.blocks[q].size);
        assert n.blocks[if q < j then q else q - 1] == h.blocks[q];
      }
      forall s | s in Spans(n) ensures s in Spans(h) {
        var q :| 0 <= q < |n.blocks| && !n.blocks[q].free && s == (n.blocks[q].start, n.blocks[q].size);
        assert n.blocks[q] == h.blocks[if q < j then q else q + 1];
      }
    }
  }

  /** A release removes exactly the interval of the released buffer. */
  lemma ReleaseSpans(h: Heap, p: nat)
    requires WellFormed(h) && Live(h, p)
    ensures Spans(Release(h, p)) == Spans(h) - {(p - HEADER, SizeAt(h, p))}
  {
    var i := IndexOf(h, p - HEADER);
    IndexUnique(h, i);
    JoinBackKeeps(h, i);
    JoinBackSpans(h, i);
    JoinNextSpans(JoinBack(h, i), Joined(h, i));
  }

  /** Distinct live buffers occupy disjoint stretches inside the pool, header included. */
  lemma LiveDisjoint(h: Heap, p: nat, q: nat)
    requires WellFormed(h) && Live(h, p) && Live(h, q) && p != q
    ensures p + SizeAt(h, p) <= q || q + SizeAt(h, q) <= p
    ensures h.base + HEADER <= p && p - HEADER + SizeAt(h, p) <= h.end
  {
    ApartAll(h);
    var i, j := IndexOf(h, p - HEADER), IndexOf(h, q - HEADER);
    assert i != j;
  }

  lemma {:induction false} StaysLive(h: Heap, n: Heap, p: nat)
    requires WellFormed(h) && WellFormed(n) && Live(h, p)
    requires (p - HEADER, SizeAt(h, p)) in Spans(n)
    ensures Live(n, p) && SizeAt(n, p) == SizeAt(h, p)
  {
    var q :| 0 <= q < |n.blocks| && !n.blocks[q].free
             && (p - HEADER, SizeAt(h, p)) == (n.blocks[q].start, n.blocks[q].size);
    IndexUnique(n, q);
  }

  // ---------------------------------------------------------------- canonical layout

  predicate SamePool(h: Heap, g: Heap) {
    h.anchor == g.anchor && h.base == g.base && h.end == g.end
  }

  lemma NotShorter(h: Heap, g: Heap, i: nat)
    requires WellFormed(h) && WellFormed(g) && SamePool(h, g) && Spans(h) == Spans(g)
    requires i < |h.blocks| && i < |g.blocks| && h.blocks[i].start == g.blocks[i].start
    requires h.blocks[i].free && g.blocks[i].free
    ensures g.blocks[i].size <= h.blocks[i].size
  {
    assert BlockOk(h, i) && BlockOk(g, i);
    ApartAll(g);
    if i + 1 < |h.blocks| {
      assert !BothFree(h, i);
      var x := h.blocks[i + 1];
      assert (x.start, x.size) in Spans(g);
      var q :| 0 <= q < |g.blocks| && !g.blocks[q].free && (x.start, x.size) == (g.blocks[q].start, g.blocks[q].size);
      assert BlockOk(h, i + 1);
    }
  }

  lemma UsedMatches(h: Heap, g: Heap, i: nat)
    requires WellFormed(h) && WellFormed(g) && SamePool(h, g) && Spans(h) == Spans(g)
    requires i < |h.blocks| && i < |g.blocks| && h.blocks[i].start == g.blocks[i].start
    requires !h.blocks[i].free
    ensures g.blocks[i] == h.blocks[i]
  {
    var x := h.blocks[i];
    assert (x.start, x.size) in Spans(g);
    var q :| 0 <= q < |g.blocks| && !g.blocks[q].free && (x.start, x.size) == (g.blocks[q].start, g.blocks[q].size);
    SameStart(g, q, i);
  }

  lemma {:induction false} SamePrefix(h: Heap, g: Heap, i: nat)
    requires WellFormed(h) && WellFormed(g) && SamePool(h, g) && Spans(h) == Spans(g)
    requires i <= |h.blocks|
    ensures i <= |g.blocks| && h.blocks[..i] == g.blocks[..i] && HeadAt(h, i) == HeadAt(g, i)
  {
    if i > 0 {
      SamePrefix(h, g, i - 1);
      assert BlockOk(h, i - 1);
      if i - 1 == |g.blocks| {
        ApartAll(h);
        assert false;
      } else {
        assert BlockOk(g, i - 1);
        if !h.blocks[i - 1].free {
          UsedMatches(h, g, i - 1);
        } else if !g.blocks[i - 1].free {
          UsedMatches(g, h, i - 1);
        } else {
          NotShorter(h, g, i - 1);
          NotShorter(g, h, i - 1);
        }
        assert h.blocks[i - 1] == g.blocks[i - 1];
        assert h.blocks[..i] == h.blocks[..i - 1] + [h.blocks[i - 1]];
        assert g.blocks[..i] == g.blocks[..i - 1] + [g.blocks[i - 1]];
      }
    }
  }

  /** The live buffers alone determine the whole block layout. */
  lemma Canonical(h: Heap, g: Heap)
    requires WellFormed(h) && WellFormed(g) && SamePool(h, g) && Spans(h) == Spans(g)
    ensures h.blocks == g.blocks
  {
    SamePrefix(h, g, |h.blocks|);
    SamePrefix(g, h, |g.blocks|);
  }

  lemma NotSpanned(h: Heap, p: nat, size: nat)
    requires p >= HEADER && !Live(h, p)
    ensures (p - HEADER, size) !in Spans(h)
  {
  }

  lemma AddRemove<T>(s: set<T>, x: T)
    requires x !in s
    ensures s + {x} - {x} == s
  {
  }

  /** If `n` has one live buffer more than `h`, releasing it gives the layout of `h`. */
  lemma ReleaseUndoes(h: Heap, n: Heap, p: nat)
    requires WellFormed(h) && WellFormed(n) && SamePool(h, n) && Live(n, p) && !Live(h, p)
    requires Spans(n) == Spans(h) + {(p - HEADER, SizeAt(n, p))}
    ensures Release(n, p).blocks == h.blocks
  {
    NotSpanned(h, p, SizeAt(n, p));
    ReleaseKeeps(n, p);
    ReleaseSpans(n, p);
    AddRemove(Spans(h), (p - HEADER, SizeAt(n, p)));
    Canonical(Release(n, p), h);
  }

  lemma SplitReleaseList(h: Heap, k: nat, need: nat)
    requires CanCarve(h, k, need) && h.blocks[Slot(h, k)].size - need > SIZE_Q + HEADER
    ensures var (n, p) := Carve(h, k, need); Live(n, p) && Release(n, p).free == h.free
  {
    hide Spans, Covered;
    var n := Carve(h, k, need).0;
    var i := Slot(h, k);
    SplitSpans(h, k, need);
    SplitKeeps(h, k, need);
    if i + 1 < |h.blocks| {
      assert !BothFree(h, i);
      assert n.blocks[i + 2] == h.blocks[i + 1];
    }
    IndexUnique(n, i + 1);
    MergeIntoUsed(n, i + 1);
  }

  /** Joining backwards next to a used block leaves the free list alone. */
  lemma MergeIntoUsed(n: Heap, i: nat)
    requires 0 < i < |n.blocks| && n.blocks[i - 1].free
    requires i + 1 < |n.blocks| ==> !n.blocks[i + 1].free
    ensures ReleaseBlock(n, i).free == n.free
  {
    var m := JoinBack(n, i);
    if i < |m.blocks| { assert m.blocks[i] == n.blocks[i + 1]; }
  }

  lemma WholeReleaseList(h: Heap, k: nat, need: nat)
    requires CanCarve(h, k, need) && h.blocks[Slot(h, k)].size - need <= SIZE_Q + HEADER
    ensures var (n, p) := Carve(h, k, need);
            Live(n, p) && Release(n, p).free == h.free[..k] + h.free[k + 1..] + [h.free[k]]
  {
    var n := Carve(h, k, need).0;
    var i := Slot(h, k);
    WholeSpans(h, k, need);
    WholeKeeps(h, k, need);
    if i + 1 < |h.blocks| { assert !BothFree(h, i); assert n.blocks[i + 1] == h.blocks[i + 1]; }
    if i > 0 { assert !BothFree(h, i - 1); assert n.blocks[i - 1] == h.blocks[i - 1]; }
    assert n.blocks[i].start == Carve(h, k, need).1 - HEADER;
    IndexUnique(n, i);
    hide WellFormed, Spans, Slot;
    var m := JoinBack(n, i);
    assert JoinNext(m, i) == m;
  }

  /** Giving back a fresh buffer restores the block layout. `k` is the entry carved, the first smallest:
      split, it leaves the free list as it was; taken whole, it comes back at the end of the list. So
      the heap is restored if and only if the block was split or last in the list. */
  lemma AllocReleaseRestores(h: Heap, request: nat) returns (k: nat)
    requires WellFormed(h) && Alloc(h, request).1.Some?
    ensures FirstSmallest(h, Need(request), k, |h.free|)
    ensures var (n, p) := (Alloc(h, request).0, Alloc(h, request).1.value);
            var split := FreeSize(h, k) - Need(request) > SIZE_Q + HEADER;
            && Live(n, p)
            && Release(n, p) == h.(free := if split then h.free else h.free[..k] + h.free[k + 1..] + [h.free[k]])
            && (Release(n, p) == h <==> split || k == |h.free| - 1)
  {
    hide Release, Spans, Carve, BestOf, Fits, FirstSmallest;
    var need := Need(request);
    NeedBounds(request);
    BestFitsAt(h, need, |h.free|);
    ScanExact(h, need, |h.free|);
    k := BestOf(h, need, |h.free|).value;
    CarvePool(h, k, need);
    assert NoDup(h.free);
    hide Need;
    CarveKeeps(h, k, need);
    CarveSpans(h, k, need);
    hide WellFormed;
    var (n, p) := Carve(h, k, need);
    ReleaseUndoes(h, n, p);
    ReleasePool(n, p);
    if FreeSize(h, k) - need > SIZE_Q + HEADER {
      SplitReleaseList(h, k, need);
    } else {
      WholeReleaseList(h, k, need);
      MovedLast(h.free, k);
    }
  }

  /** Moving a member to the end changes the list unless it is there. */
  lemma MovedLast(q: seq<nat>, k: nat)
    requires NoDup(q) && k < |q|
    ensures q[..k] + q[k + 1..] + [q[k]] == q <==> k == |q| - 1
  {
    var r := q[..k] + q[k + 1..] + [q[k]];
    if k < |q| - 1 { assert r[k] == q[k + 1] != q[k]; } else { assert r == q; }
  }

  lemma CarvePool(h: Heap, k: nat, need: nat)
    requires Listed(h) && k < |h.free| && Fits(h, need, k)
    ensures SamePool(h, Carve(h, k, need).0)
  {}

  lemma ReleasePool(h: Heap, p: nat)
    requires WellFormed(h) && Live(h, p)
    ensures SamePool(h, Release(h, p))
  {}

  // ---------------------------------------------------------------- recovery

  ghost predicate Releasable(h: Heap, order: seq<nat>)
    decreases |order|
  {
    order == [] || (Live(h, order[0]) && Releasable(Release(h, order[0]), order[1..]))
  }

  ghost function ReleaseAll(h: Heap, order: seq<nat>): Heap
    requires Releasable(h, order)
    decreases |order|
  {
    if order == [] then h else ReleaseAll(Release(h, order[0]), order[1..])
  }

  function Pointers(h: Heap): set<nat> {
    set s | s in Spans(h) :: s.0 + HEADER
  }

  lemma PointersLive(h: Heap, p: nat)
    requires WellFormed(h)
    ensures p in Pointers(h) <==> Live(h, p)
  {
    if p in Pointers(h) {
      var s :| s in Spans(h) && s.0 + HEADER == p;
      var q :| 0 <= q < |h.blocks| && !h.blocks[q].free && s == (h.blocks[q].start, h.blocks[q].size);
      assert UsedAt(h, p - HEADER);
    }
    if Live(h, p) {
      IndexUnique(h, IndexOf(h, p - HEADER));
      assert (p - HEADER, SizeAt(h, p)) in Spans(h);
    }
  }

  lemma ReleasePointers(h: Heap, p: nat)
    requires WellFormed(h) && Live(h, p)
    ensures Pointers(Release(h, p)) == Pointers(h) - {p}
  {
    ReleaseKeeps(h, p);
    ReleaseSpans(h, p);
    var n := Release(h, p);
    forall q | q in Pointers(h) && q != p ensures q in Pointers(n) {
      var s :| s in Spans(h) && s.0 + HEADER == q;
      assert s in Spans(n);
    }
    forall q | q in Pointers(n) ensures q in Pointers(h) && q != p {
      var s :| s in Spans(n) && s.0 + HEADER == q;
      if q == p {
        var a :| 0 <= a < |h.blocks| && !h.blocks[a].free && s == (h.blocks[a].start, h.blocks[a].size);
        IndexUnique(h, a);
      }
    }
  }

  /** Releasing every live buffer, in any order, leaves one free block spanning the pool. */
  lemma {:induction false} AllReleased(h: Heap, order: seq<nat>)
    requires WellFormed(h)
    requires multiset(order) == multiset(Pointers(h))
    ensures Releasable(h, order)
    ensures ReleaseAll(h, order).blocks == [Block(h.base, h.end - h.base, true)]
    ensures ReleaseAll(h, order).free == [h.base]
    decreases |order|
  {
    if order == [] {
      assert Pointers(h) == {} by {
        assert forall p :: p in Pointers(h) ==> p in multiset(order);
      }
      EmptyPool(h);
    } else {
      var p := order[0];
      assert order == [p] + order[1..];
      assert p in multiset(order);
      PointersLive(h, p);
      ReleasePointers(h, p);
      ReleaseKeeps(h, p);
      DropFirst(Pointers(h), order);
      AllReleased(Release(h, p), order[1..]);
    }
  }

  lemma DropFirst(s: set<nat>, order: seq<nat>)
    requires order != [] && multiset(order) == multiset(s)
    ensures multiset(order[1..]) == multiset(s - {order[0]})
  {
    var a := order[0];
    assert order == [a] + order[1..];
    assert a in multiset(order);
    assert multiset(s) == multiset(s - {a}) + multiset{a};
    assert multiset(order[1..]) + multiset{a} == multiset(s - {a}) + multiset{a};
    forall x ensures multiset(order[1..])[x] == multiset(s - {a})[x] {
      assert (multiset(order[1..]) + multiset{a})[x] == (multiset(s - {a}) + multiset{a})[x];
    }
  }

  lemma EmptyPool(h: Heap)
    requires WellFormed(h) && Pointers(h) == {}
    ensures h.blocks == [Block(h.base, h.end - h.base, true)] && h.free == [h.base]
  {
    assert BlockOk(h, 0);
    if |h.blocks| > 1 { assert !BothFree(h, 0); }
    if |h.free| > 1 { assert h.free[0] != h.free[1]; }
    forall i | 0 <= i < |h.blocks|
      ensures !h.blocks[i].free ==> h.blocks[i].start + HEADER in Pointers(h)
    {
      assert !h.blocks[i].free ==> (h.blocks[i].start, h.blocks[i].size) in Spans(h);
    }
    assert Covered(h, 0);
    forall k | 0 <= k < |h.free| ensures h.free[k] == h.base {
      assert Slot(h, k) == 0;
    }
  }

  /** Right after a release, any request that fitted the released buffer succeeds. */
  lemma ReleasedIsEnough(h: Heap, p: nat, request: nat)
    requires WellFormed(h) && Live(h, p) && request + HEADER <= SizeAt(h, p)
    ensures Listed(Release(h, p)) && Alloc(Release(h, p), request).1.Some?
  {
    ReleaseKeeps(h, p);
    var k := ReleasedEntry(h, p);
    var n := Release(h, p);
    SizeMultiple(h, p);
    hide Release, WellFormed, SizeAt, Slot;
    assert Need(request) <= SizeAt(h, p);
    assert Fits(n, Need(request), k);
    ScanExact(n, Need(request), |n.free|);
  }

  /** A live buffer's size is a multiple of the quantum and at least the least block. */
  lemma SizeMultiple(h: Heap, p: nat)
    requires WellFormed(h) && Live(h, p)
    ensures SizeAt(h, p) % 4 == 0 && SizeAt(h, p) >= MIN_BLOCK
  {
    IndexUnique(h, IndexOf(h, p - HEADER));
    assert BlockOk(h, IndexOf(h, p - HEADER));
  }

  /** Some list entry after a release has room for what was released. */
  lemma ReleasedEntry(h: Heap, p: nat) returns (k: nat)
    requires WellFormed(h) && Live(h, p)
    ensures var n := Release(h, p); Listed(n) && k < |n.free| && n.blocks[Slot(n, k)].size >= SizeAt(h, p)
  {
    var i := IndexOf(h, p - HEADER);
    IndexUnique(h, i);
    var n := Release(h, p);
    ReleaseKeeps(h, p);
    JoinBackKeeps(h, i);
    var j := Joined(h, i);
    assert n.blocks[j].free && n.blocks[j].size >= h.blocks[i].size;
    assert Covered(n, j);
    k :| 0 <= k < |n.free| && n.free[k] == n.blocks[j].start;
    SameStart(n, Slot(n, k), j);
  }

  // ---------------------------------------------------------------- conservation

  function TotalSize(blocks: seq<Block>, free: bool): nat {
    if blocks == [] then 0
    else (if blocks[0].free == free then blocks[0].size else 0) + TotalSize(blocks[1..], free)
  }

  lemma {:induction false} SuffixTotal(h: Heap, i: nat)
    requires Tiled(h) && i <= |h.blocks|
    ensures TotalSize(h.blocks[i..], true) + TotalSize(h.blocks[i..], false) == h.end - HeadAt(h, i)
    decreases |h.blocks| - i
  {
    if i < |h.blocks| {
      assert BlockOk(h, i);
      SuffixTotal(h, i + 1);
      assert h.blocks[i..][1..] == h.blocks[i + 1..];
    }
  }

  // ---------------------------------------------------------------- runs

  datatype Op = Get(request: nat) | Rel(p: nat)

  ghost function Apply(h: Heap, op: Op): Heap
    requires Listed(h)
  {
    match op
    case Get(request) => Alloc(h, request).0
    case Rel(p) => if Live(h, p) then Release(h, p) else h
  }

  ghost predicate Runs(h: Heap, ops: seq<Op>, last: Heap)
    decreases |ops|
  {
    if ops == [] then h == last
    else
      && Listed(h)
      && (ops[0].Rel? ==> Live(h, ops[0].p))
      && Runs(Apply(h, ops[0]), ops[1..], last)
  }

  /** Every run of requests and valid releases keeps the layout well formed, the pool where it is,
      and the free and allocated bytes adding up to the pool. */
  lemma {:induction false} RunsKeep(h: Heap, ops: seq<Op>, last: Heap)
    requires WellFormed(h) && Runs(h, ops, last)
    ensures WellFormed(last) && SamePool(h, last)
    ensures TotalSize(last.blocks, true) + TotalSize(last.blocks, false) == h.end - h.base
    decreases |ops|
  {
    if ops == [] {
      SuffixTotal(h, 0);
      assert h.blocks[0..] == h.blocks;
    } else {
      match ops[0]
      case Get(request) =>
        AllocKeeps(h, request);
        BestFitsAt(h, Need(request), |h.free|);
        RunsKeep(Apply(h, ops[0]), ops[1..], last);
      case Rel(p) =>
        ReleaseKeeps(h, p);
        RunsKeep(Apply(h, ops[0]), ops[1..], last);
    }
  }
}

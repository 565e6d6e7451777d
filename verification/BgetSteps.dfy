/** Each half of `bget` and `brel` keeps the layout of the heap well formed. */
module BgetSteps {
  import opened Basics
  import opened BgetLayout

  ghost predicate CanCarve(h: Heap, k: nat, need: nat) {
    && WellFormed(h)
    && k < |h.free|
    && Fits(h, need, k)
    && need % 4 == 0
    && need >= MIN_BLOCK
  }

  // ---------------------------------------------------------------- replacing a run of blocks

  /** Replace blocks `i..j` by `mid`. */
  function Splice(blocks: seq<Block>, i: nat, j: nat, mid: seq<Block>): seq<Block>
    requires i <= j <= |blocks|
  {
    blocks[..i] + mid + blocks[j..]
  }

  /** Blocks that tile the gap `from..to` on their own. */
  predicate Row(mid: seq<Block>, from: nat, to: nat) {
    && |mid| > 0
    && mid[0].start == from
    && (forall i :: 0 <= i < |mid| ==> RowOk(mid, to, i))
  }

  predicate RowOk(mid: seq<Block>, to: nat, i: nat)
    requires i < |mid|
  {
    && mid[i].start % 4 == 0
    && mid[i].size % 4 == 0
    && mid[i].size >= MIN_BLOCK
    && mid[i].Stop() == if i + 1 < |mid| then mid[i + 1].start else to
  }

  lemma SpliceTiled(h: Heap, i: nat, j: nat, mid: seq<Block>)
    requires Tiled(h) && i < j <= |h.blocks|
    requires Row(mid, h.blocks[i].start, HeadAt(h, j))
    ensures Tiled(h.(blocks := Splice(h.blocks, i, j, mid)))
  {
    var n := h.(blocks := Splice(h.blocks, i, j, mid));
    var shift := |mid|;
    forall q | 0 <= q < |n.blocks| ensures BlockOk(n, q) {
      if q < i {
        assert BlockOk(h, q);
      } else if q < i + shift {
        assert RowOk(mid, HeadAt(h, j), q - i);
      } else {
        assert BlockOk(h, q - i - shift + j);
      }
    }
  }

  // ---------------------------------------------------------------- bget

  lemma SplitKeeps(h: Heap, k: nat, need: nat)
    requires CanCarve(h, k, need)
    requires h.blocks[Slot(h, k)].size - need > SIZE_Q + HEADER
    ensures WellFormed(Carve(h, k, need).0)
  {
    var i := Slot(h, k);
    var x := h.blocks[i];
    var rest := Block(x.start, x.size - need, true);
    var taken := Block(x.start + x.size - need, need, false);
    var n := Carve(h, k, need).0;
    assert n.blocks == Splice(h.blocks, i, i + 1, [rest, taken]);
    assert BlockOk(h, i);
    SpliceTiled(h, i, i + 1, [rest, taken]);
    assert n == h.(blocks := Splice(h.blocks, i, i + 1, [rest, taken]));
    forall q | 0 <= q < |n.free| ensures FreeAt(n, n.free[q]) {
      var s := Slot(h, q);
      var t := if s <= i then s else s + 1;
      assert n.blocks[t].start == n.free[q] && n.blocks[t].free;
    }
    forall q | 0 <= q < |n.blocks| ensures Covered(n, q) {
      assert Covered(h, if q <= i then q else q - 1);
    }
    forall q | 0 <= q < |n.blocks| - 1 ensures !BothFree(n, q) {
      if q < i { assert !BothFree(h, q); } else if q > i + 1 { assert !BothFree(h, q - 1); }
    }
  }

  lemma WholeKeeps(h: Heap, k: nat, need: nat)
    requires CanCarve(h, k, need)
    requires h.blocks[Slot(h, k)].size - need <= SIZE_Q + HEADER
    ensures WellFormed(Carve(h, k, need).0)
  {
    var i := Slot(h, k);
    var n := Carve(h, k, need).0;
    forall q | 0 <= q < |n.free| ensures FreeAt(n, n.free[q]) {
      var o := if q < k then q else q + 1;
      assert h.free[o] == n.free[q] && o != k;
      var s := Slot(h, o);
      assert s != i;
      assert n.blocks[s].start == n.free[q] && n.blocks[s].free;
    }
    assert BlockOk(h, i);
    assert n.blocks == Splice(h.blocks, i, i + 1, [h.blocks[i].(free := false)]);
    SpliceTiled(h, i, i + 1, [h.blocks[i].(free := false)]);
    assert Tiled(n) by {
      var t := h.(blocks := Splice(h.blocks, i, i + 1, [h.blocks[i].(free := false)]));
      forall q | 0 <= q < |n.blocks| ensures BlockOk(n, q) { assert BlockOk(t, q); }
    }
    forall q | 0 <= q < |n.blocks| - 1 ensures !BothFree(n, q) { assert !BothFree(h, q); }
    forall q | 0 <= q < |n.blocks| ensures Covered(n, q) {
      assert Covered(h, q);
      if n.blocks[q].free {
        if h.blocks[q].start == h.free[k] { SameStart(h, q, i); }
        var o :| 0 <= o < |h.free| && h.free[o] == h.blocks[q].start;
        assert n.free[if o < k then o else o - 1] == h.blocks[q].start;
      }
    }
  }

  lemma CarveKeeps(h: Heap, k: nat, need: nat)
    requires CanCarve(h, k, need)
    ensures WellFormed(Carve(h, k, need).0)
  {
    if h.blocks[Slot(h, k)].size - need > SIZE_Q + HEADER {
      SplitKeeps(h, k, need);
    } else {
      WholeKeeps(h, k, need);
    }
  }

  /** Allocation keeps the heap well formed, whatever the request. */
  lemma AllocKeeps(h: Heap, request: nat)
    requires WellFormed(h)
    ensures WellFormed(Alloc(h, request).0)
  {
    var need := Need(request);
    NeedBounds(request);
    BestFitsAt(h, need, |h.free|);
    if BestOf(h, need, |h.free|).Some? {
      CarveKeeps(h, BestOf(h, need, |h.free|).value, need);
    }
  }

  // ---------------------------------------------------------------- brel

  /** At most blocks `j` and `j + 1` are free neighbours. */
  predicate FreeOnlyAfter(h: Heap, j: nat) {
    forall i :: 0 <= i < |h.blocks| - 1 && BothFree(h, i) ==> i == j
  }

  lemma MergeBackKeeps(h: Heap, i: nat)
    requires WellFormed(h) && 0 < i < |h.blocks| && h.blocks[i - 1].free && !h.blocks[i].free
    ensures Loose(JoinBack(h, i)) && FreeOnlyAfter(JoinBack(h, i), i - 1)
  {
    var n := JoinBack(h, i);
    var y := h.blocks[i - 1];
    var both := Block(y.start, y.size + h.blocks[i].size, true);
    assert BlockOk(h, i - 1) && BlockOk(h, i);
    SpliceTiled(h, i - 1, i + 1, [both]);
    assert n == h.(blocks := Splice(h.blocks, i - 1, i + 1, [both]));
    forall q | 0 <= q < |n.free| ensures FreeAt(n, n.free[q]) {
      var s := Slot(h, q);
      var t := if s < i then s else s - 1;
      assert n.blocks[t].start == n.free[q] && n.blocks[t].free;
    }
    forall q | 0 <= q < |n.blocks| ensures Covered(n, q) {
      assert Covered(h, if q <= i - 1 then q else q + 1);
    }
    forall q | 0 <= q < |n.blocks| - 1 && q != i - 1 ensures !BothFree(n, q) {
      if q > i - 1 { assert !BothFree(h, q + 1); } else if q < i - 1 { assert !BothFree(h, q); }
    }
  }

  lemma AppendKeeps(h: Heap, i: nat)
    requires WellFormed(h) && i < |h.blocks| && !h.blocks[i].free && !(i > 0 && h.blocks[i - 1].free)
    ensures Loose(JoinBack(h, i)) && FreeOnlyAfter(JoinBack(h, i), i)
  {
    var n := JoinBack(h, i);
    var x := h.blocks[i];
    assert x.start !in h.free by {
      if x.start in h.free {
        var k :| 0 <= k < |h.free| && h.free[k] == x.start;
        SameStart(h, i, Slot(h, k));
      }
    }
    forall q | 0 <= q < |n.free| ensures FreeAt(n, n.free[q]) {
      var s := if q < |h.free| then Slot(h, q) else i;
      assert n.blocks[s].start == n.free[q] && n.blocks[s].free;
    }
    forall q | 0 <= q < |n.blocks| ensures BlockOk(n, q) {
      assert BlockOk(h, q);
    }
    forall q | 0 <= q < |n.blocks| ensures Covered(n, q) {
      assert Covered(h, q);
      assert q == i ==> n.free[|h.free|] == x.start;
    }
    forall q | 0 <= q < |n.blocks| - 1 && q != i ensures !BothFree(n, q) {
      assert !BothFree(h, q);
    }
  }

  lemma JoinBackKeeps(h: Heap, i: nat)
    requires WellFormed(h) && i < |h.blocks| && !h.blocks[i].free
    ensures var n := JoinBack(h, i); var j := Joined(h, i);
            Loose(n) && j < |n.blocks| && n.blocks[j].free && FreeOnlyAfter(n, j)
            && HeadAt(n, j + 1) == HeadAt(h, i + 1)
  {
    if i > 0 && h.blocks[i - 1].free {
      MergeBackKeeps(h, i);
    } else {
      AppendKeeps(h, i);
    }
  }

  lemma {:induction false} WithoutKeeps(s: seq<nat>, a: nat)
    requires NoDup(s)
    ensures NoDup(Without(s, a))
    ensures forall b :: b in Without(s, a) <==> b in s && b != a
    ensures a in s ==> |Without(s, a)| == |s| - 1
    ensures a !in s ==> Without(s, a) == s
  {
    if s != [] {
      var t := s[1..];
      assert forall b :: b in s <==> b == s[0] || b in t;
      assert s[0] !in t;
      if s[0] != a {
        WithoutKeeps(t, a);
        var r := Without(t, a);
        assert forall b :: b in [s[0]] + r <==> b == s[0] || b in r;
        assert s[0] !in r;
      }
    }
  }

  lemma {:induction false} WithoutAt(s: seq<nat>, k: nat)
    requires NoDup(s) && k < |s|
    ensures Without(s, s[k]) == s[..k] + s[k + 1..]
  {
    if k > 0 {
      WithoutAt(s[1..], k - 1);
      assert s[1..][..k - 1] == s[1..k];
      assert s[1..][k..] == s[k + 1..];
      assert s[..k] == [s[0]] + s[1..k];
    }
  }

  lemma MergeNextListed(h: Heap, j: nat)
    requires Loose(h) && j + 1 < |h.blocks| && h.blocks[j].free && h.blocks[j + 1].free
    ensures Listed(JoinNext(h, j))
  {
    var n := JoinNext(h, j);
    var gone := h.blocks[j + 1].start;
    WithoutKeeps(h.free, gone);
    forall q | 0 <= q < |n.free| ensures FreeAt(n, n.free[q]) {
      var a := n.free[q];
      assert a in n.free && a != gone;
      var o :| 0 <= o < |h.free| && h.free[o] == a;
      var s := Slot(h, o);
      assert s != j + 1;
      var t := if s <= j then s else s - 1;
      assert n.blocks[t].start == a && n.blocks[t].free;
    }
    forall q | 0 <= q < |n.blocks| ensures Covered(n, q) {
      var o := if q <= j then q else q + 1;
      assert Covered(h, o) && n.blocks[q].start == h.blocks[o].start;
      if h.blocks[o].start == gone { SameStart(h, o, j + 1); }
    }
  }

  lemma MergeNextTiled(h: Heap, j: nat)
    requires Loose(h) && j + 1 < |h.blocks| && h.blocks[j].free && h.blocks[j + 1].free && FreeOnlyAfter(h, j)
    ensures Tiled(JoinNext(h, j)) && NoAdjacentFree(JoinNext(h, j))
  {
    var n := JoinNext(h, j);
    var y := h.blocks[j];
    var both := Block(y.start, y.size + h.blocks[j + 1].size, y.free);
    assert BlockOk(h, j) && BlockOk(h, j + 1);
    SpliceTiled(h, j, j + 2, [both]);
    var t := h.(blocks := Splice(h.blocks, j, j + 2, [both]));
    assert n.blocks == t.blocks;
    forall q | 0 <= q < |n.blocks| ensures BlockOk(n, q) { assert BlockOk(t, q); }
    forall q | 0 <= q < |n.blocks| - 1 ensures !BothFree(n, q) {
      if q < j { assert !BothFree(h, q); } else { assert !BothFree(h, q + 1); }
    }
  }

  lemma JoinNextKeeps(h: Heap, j: nat)
    requires Loose(h) && j < |h.blocks| && h.blocks[j].free && FreeOnlyAfter(h, j)
    ensures WellFormed(JoinNext(h, j))
  {
    if j + 1 < |h.blocks| && h.blocks[j + 1].free {
      MergeNextListed(h, j);
      MergeNextTiled(h, j);
    } else {
      forall q | 0 <= q < |h.blocks| - 1 ensures !BothFree(h, q) {
      }
    }
  }

  /** Releasing a live buffer keeps the heap well formed. */
  lemma ReleaseKeeps(h: Heap, p: nat)
    requires WellFormed(h) && Live(h, p)
    ensures WellFormed(Release(h, p))
  {
    var i := IndexOf(h, p - HEADER);
    IndexUnique(h, i);
    JoinBackKeeps(h, i);
    JoinNextKeeps(JoinBack(h, i), Joined(h, i));
  }

  lemma FreshWellFormed(anchor: nat, base: nat, len: nat)
    requires anchor > 0 && anchor % 4 == 0 && anchor + MIN_BLOCK <= base
    requires base % 4 == 0 && len % 4 == 0 && len >= MIN_BLOCK + HEADER
    ensures WellFormed(Fresh(anchor, base, len))
  {
    var h := Fresh(anchor, base, len);
    assert h.blocks[0].free && h.blocks[0].start == h.free[0];
    assert FreeAt(h, h.free[0]);
  }
}

/** Memory determines the heap: the walks over headers and links recover it. */
module BgetWalk {
  import opened BgetLayout
  import opened BgetTheorems
  import opened BgetMemory

  /** Walk the headers from `a` by block size up to the sentinel at `end`. */
  ghost function WalkHeaders(m: seq<int>, a: nat, end: nat): seq<Block>
    decreases end - a
  {
    if a < end && a + HEADER <= |m| && m[a + BSIZE] != 0 then
      var tag := m[a + BSIZE];
      var size: nat := if tag > 0 then tag else -tag;
      if a + size <= end then [Block(a, size, tag > 0)] + WalkHeaders(m, a + size, end) else []
    else []
  }

  /** Follow forward links from `node` until the list head comes round again. */
  ghost function WalkLinks(m: seq<int>, node: int, anchor: nat, steps: nat): seq<nat>
    decreases steps
  {
    if steps == 0 || node == anchor || node < 0 || node + MIN_BLOCK > |m| then []
    else [node as nat] + WalkLinks(m, m[node + FLINK], anchor, steps - 1)
  }

  lemma {:induction false} HeaderWalk(m: seq<int>, h: Heap, i: nat)
    requires Encodes(m, h) && i <= |h.blocks|
    ensures WalkHeaders(m, HeadAt(h, i), h.end) == h.blocks[i..]
    decreases |h.blocks| - i
  {
    if i < |h.blocks| {
      HeaderWalk(m, h, i + 1);
      HeadIn(h, i);
      HeadIn(h, i + 1);
      assert BlockOk(h, i) && SizeOk(m, h, i);
      assert h.blocks[i..] == [h.blocks[i]] + h.blocks[i + 1..];
    }
  }

  lemma {:induction false} LinkWalk(m: seq<int>, h: Heap, i: nat, steps: nat)
    requires Encodes(m, h) && i <= |h.free| && steps >= |h.free| - i
    ensures WalkLinks(m, Node(h, i + 1), h.anchor, steps) == h.free[i..]
    decreases |h.free| - i
  {
    if i < |h.free| {
      LinkWalk(m, h, i + 1, steps - 1);
      assert LinkOk(m, h, i + 1);
      HeadIn(h, Slot(h, i));
      assert h.free[i..] == [h.free[i]] + h.free[i + 1..];
    }
  }

  /** Walking the headers from the pool base meets exactly the blocks and stops at the sentinel. */
  lemma HeadersDecode(m: seq<int>, h: Heap)
    requires Encodes(m, h)
    ensures WalkHeaders(m, h.base, h.end) == h.blocks
  {
    HeaderWalk(m, h, 0);
    assert h.blocks[0..] == h.blocks;
  }

  /** Walking the list from its static head meets exactly the free blocks, in list order. */
  lemma LinksDecode(m: seq<int>, h: Heap, steps: nat)
    requires Encodes(m, h) && steps >= |h.free|
    ensures h.anchor + MIN_BLOCK <= |m|
    ensures WalkLinks(m, m[h.anchor + FLINK], h.anchor, steps) == h.free
  {
    assert LinkOk(m, h, 0);
    LinkWalk(m, h, 0, steps);
    assert h.free[0..] == h.free;
  }

  /** One memory encodes at most one heap in a given pool. */
  lemma EncodingUnique(m: seq<int>, h: Heap, g: Heap)
    requires Encodes(m, h) && Encodes(m, g) && SamePool(h, g)
    ensures h == g
  {
    HeadersDecode(m, h);
    HeadersDecode(m, g);
    LinksDecode(m, h, |h.free| + |g.free|);
    LinksDecode(m, g, |h.free| + |g.free|);
  }
}

/** Each sequence of word stores made by `bget`, `brel` and `bpool` turns an encoding of
    one heap into an encoding of the next, without touching a live payload byte. */
module BgetStores {
  import opened BgetLayout
  import opened BgetSteps
  import opened BgetMemory

  // ---------------------------------------------------------------- bget, tail split

  ghost function SplitStores(m: seq<int>, b: nat, left: nat, need: nat): (r: seq<int>)
    requires b + left + need + WORD <= |m| && need >= HEADER && b + HEADER <= |m|
    ensures |r| == |m|
  {
    var m1 := Store(m, b + BSIZE, left);
    var m2 := Store(m1, b + left + PREVFREE, left);
    var m3 := Store(m2, b + left + BSIZE, -(need as int));
    Store(m3, b + left + need + PREVFREE, 0)
  }

  lemma SplitBefore(m: seq<int>, h: Heap, k: nat, need: nat)
    requires Encodes(m, h) && CanCarve(h, k, need)
    requires h.blocks[Slot(h, k)].size - need > SIZE_Q + HEADER
    ensures var n := Carve(h, k, need).0; var i := Slot(h, k);
            && i + 2 <= |n.blocks| && HeadAt(n, i + 2) == HeadAt(h, i + 1)
            && TagsOk(m, n, {i as int, i + 1}, {i + 1, i + 2}) && LinksOk(m, n)
  {
    SplitLinks(m, h, k, need);
    SplitSizes(m, h, k, need);
    SplitPrevs(m, h, k, need);
    SplitKeeps(h, k, need);
    hide LinksOk, SizeOk, PrevOk;
  }

  /** Beyond the two blocks a split makes, sizes are as before ... */
  lemma SplitSizes(m: seq<int>, h: Heap, k: nat, need: nat)
    requires Encodes(m, h) && CanCarve(h, k, need)
    requires h.blocks[Slot(h, k)].size - need > SIZE_Q + HEADER
    ensures var n := Carve(h, k, need).0; var i := Slot(h, k);
            && InBounds(m, n) && HeadAt(n, i + 2) == HeadAt(h, i + 1)
            && forall q :: 0 <= q <= |n.blocks| && q !in {i as int, i + 1} ==> SizeOk(m, n, q)
  {
    SplitKeeps(h, k, need);
    var n := Carve(h, k, need).0;
    var i := Slot(h, k);
    assert BlockOk(h, i);
    forall q | 0 <= q <= |n.blocks| && q !in {i as int, i + 1} ensures SizeOk(m, n, q) {
      assert SizeOk(m, h, if q < i then q else q - 1);
      HeadIn(n, q);
    }
  }

  /** ... and beyond those after them, back tags. */
  lemma SplitPrevs(m: seq<int>, h: Heap, k: nat, need: nat)
    requires Encodes(m, h) && CanCarve(h, k, need)
    requires h.blocks[Slot(h, k)].size - need > SIZE_Q + HEADER
    ensures var n := Carve(h, k, need).0; var i := Slot(h, k);
            InBounds(m, n) && forall q :: 0 <= q <= |n.blocks| && q !in {i + 1, i + 2} ==> PrevOk(m, n, q)
  {
    SplitKeeps(h, k, need);
    var n := Carve(h, k, need).0;
    var i := Slot(h, k);
    assert BlockOk(h, i);
    forall q | 0 <= q <= |n.blocks| && q !in {i + 1, i + 2} ensures PrevOk(m, n, q) {
      assert PrevOk(m, h, if q <= i then q else q - 1);
      HeadIn(n, q);
    }
  }

  /** A split leaves the free list as it was. */
  lemma SplitLinks(m: seq<int>, h: Heap, k: nat, need: nat)
    requires Encodes(m, h) && CanCarve(h, k, need)
    requires h.blocks[Slot(h, k)].size - need > SIZE_Q + HEADER
    ensures LinksOk(m, Carve(h, k, need).0)
  {
    hide TagsOk;
    SplitKeeps(h, k, need);
    var n := Carve(h, k, need).0;
    forall q | 0 <= q <= |n.free| ensures LinkOk(m, n, q) {
      assert LinkOk(m, h, q);
    }
  }

  /** The header stores for a tail split at header `i` of the new layout: first the free part ... */
  lemma SplitFillRest(m: seq<int>, n: Heap, i: nat)
    requires i + 2 <= |n.blocks| && n.blocks[i].free && !n.blocks[i + 1].free
    requires TagsOk(m, n, {i as int, i + 1}, {i + 1, i + 2}) && LinksOk(m, n)
    ensures var x := n.blocks[i];
            && HeadAt(n, i + 1) == x.start + x.size && x.start + x.size + HEADER <= |m|
            && var m' := Store(Store(m, x.start + BSIZE, x.size), x.start + x.size + PREVFREE, x.size);
               TagsOk(m', n, {i + 1}, {i + 2}) && LinksOk(m', n) && Quiet(m, m', n)
  {
    var x := n.blocks[i];
    assert BlockOk(n, i);
    HeadIn(n, i + 1);
    FillSize(m, n, i, x.size, {i as int, i + 1}, {i + 1, i + 2});
    var m1 := Store(m, x.start + BSIZE, x.size);
    assert {i as int, i + 1} - {i as int} == {i + 1};
    FillPrev(m1, n, i + 1, x.size, {i + 1}, {i + 1, i + 2});
    assert {i + 1, i + 2} - {i + 1} == {i + 2};
    QuietTrans(m, m1, Store(m1, x.start + x.size + PREVFREE, x.size), n);
  }

  /** ... and for marking block `i` allocated. */
  lemma TakenFill(m: seq<int>, n: Heap, i: nat)
    requires i < |n.blocks| && !n.blocks[i].free
    requires TagsOk(m, n, {i as int}, {i + 1}) && LinksOk(m, n)
    ensures var x := n.blocks[i];
            && x.start + x.size + HEADER <= |m| && x.size >= HEADER
            && var m' := Store(Store(m, x.start + BSIZE, -(x.size as int)), x.start + x.size + PREVFREE, 0);
               Coded(m', n, {}) && Quiet(m, m', n)
  {
    var x := n.blocks[i];
    assert BlockOk(n, i);
    HeadIn(n, i + 1);
    FillSize(m, n, i, -(x.size as int), {i as int}, {i + 1});
    var m1 := Store(m, x.start + BSIZE, -(x.size as int));
    assert {i as int} - {i as int} == {};
    FillPrev(m1, n, i + 1, 0, {}, {i + 1});
    assert {i + 1} - {i + 1} == {};
    QuietTrans(m, m1, Store(m1, x.start + x.size + PREVFREE, 0), n);
  }

  lemma SplitCarve(h: Heap, k: nat, need: nat)
    requires CanCarve(h, k, need) && h.blocks[Slot(h, k)].size - need > SIZE_Q + HEADER
    ensures var n := Carve(h, k, need).0; var i := Slot(h, k); var x := h.blocks[i];
            && i + 2 <= |n.blocks| && n.blocks[i] == Block(x.start, x.size - need, true)
            && n.blocks[i + 1] == Block(x.start + x.size - need, need, false)
  {}

  lemma SplitEncodes(m: seq<int>, h: Heap, k: nat, need: nat)
    requires Encodes(m, h) && CanCarve(h, k, need)
    requires h.blocks[Slot(h, k)].size - need > SIZE_Q + HEADER
    ensures var n := Carve(h, k, need).0; var x := h.blocks[Slot(h, k)];
            && x.start + x.size + HEADER <= |m|
            && Encodes(SplitStores(m, x.start, x.size - need, need), n)
            && Quiet(m, SplitStores(m, x.start, x.size - need, need), n)
  {
    SplitCarve(h, k, need);
    SplitKeeps(h, k, need);
    hide TagsOk, LinksOk, Quiet, WellFormed, Carve, CanCarve, Store, Slot;
    SplitBefore(m, h, k, need);
    var n := Carve(h, k, need).0;
    var i := Slot(h, k);
    SplitFillRest(m, n, i);
    var x := n.blocks[i];
    var m2 := Store(Store(m, x.start + BSIZE, x.size), x.start + x.size + PREVFREE, x.size);
    TakenFill(m2, n, i + 1);
    QuietTrans(m, m2, SplitStores(m, x.start, x.size, need), n);
  }

  // ---------------------------------------------------------------- taking a node off the list

  ghost function UnlinkStores(m: seq<int>, back: nat, forth: nat): (r: seq<int>)
    requires back + MIN_BLOCK <= |m| && forth + MIN_BLOCK <= |m|
    ensures |r| == |m|
  {
    Store(Store(m, back + FLINK, forth), forth + BLINK, back)
  }

  /** `n` lists the same nodes as `h` but for entry `k`. */
  predicate Dropped(h: Heap, n: Heap, k: nat) {
    k < |h.free| && n.anchor == h.anchor && n.free == h.free[..k] + h.free[k + 1..]
  }

  lemma UnlinkTags(m: seq<int>, h: Heap, n: Heap, k: nat, sizeHoles: set<int>, prevHoles: set<int>)
    requires TagsOk(m, n, sizeHoles, prevHoles) && Dropped(h, n, k)
    ensures Node(h, k) + MIN_BLOCK <= |m| && Node(h, k + 2) + MIN_BLOCK <= |m|
    ensures TagsOk(UnlinkStores(m, Node(h, k), Node(h, k + 2)), n, sizeHoles, prevHoles)
    ensures Quiet(m, UnlinkStores(m, Node(h, k), Node(h, k + 2)), n)
  {
    var back, forth := Node(h, k), Node(h, k + 2);
    assert Node(n, k) == back && Node(n, k + 1) == forth;
    LinkStore(m, n, k, FLINK, forth, sizeHoles, prevHoles);
    var m1 := Store(m, back + FLINK, forth);
    LinkStore(m1, n, k + 1, BLINK, back, sizeHoles, prevHoles);
    var m2 := Store(m1, forth + BLINK, back);
    QuietTrans(m, m1, m2, n);
  }

  lemma UnlinkLinks(m: seq<int>, h: Heap, n: Heap, k: nat)
    requires LinksOk(m, h) && InBounds(m, n) && Listed(n) && Dropped(h, n, k)
    requires Node(h, k) + MIN_BLOCK <= |m| && Node(h, k + 2) + MIN_BLOCK <= |m|
    ensures LinksOk(UnlinkStores(m, Node(h, k), Node(h, k + 2)), n)
  {
    var back, forth := Node(h, k), Node(h, k + 2);
    assert Node(n, k) == back && Node(n, k + 1) == forth;
    var m' := UnlinkStores(m, back, forth);
    NodesSeparate(n, k, k + 1);
    forall i | 0 <= i <= |n.free| ensures LinkOk(m', n, i) {
      if i != k {
        var o := if i < k then i else i + 1;
        assert LinkOk(m, h, o);
        assert Node(n, i) == Node(h, o) && Node(n, i + 1) == Node(h, o + 1);
        UnlinkKeepsLink(m, n, k, i);
      }
    }
  }

  /** The unlink stores between nodes `k` and `k + 1` miss the link of every other pair. */
  lemma UnlinkKeepsLink(m: seq<int>, n: Heap, k: nat, i: nat)
    requires InBounds(m, n) && Listed(n) && k <= |n.free| && i <= |n.free| && i != k
    requires Node(n, k) + MIN_BLOCK <= |m| && Node(n, k + 1) + MIN_BLOCK <= |m|
    requires Node(n, i) + MIN_BLOCK <= |m| && Node(n, i + 1) + MIN_BLOCK <= |m|
    ensures var m' := UnlinkStores(m, Node(n, k), Node(n, k + 1));
            && m'[Node(n, i) + FLINK] == m[Node(n, i) + FLINK]
            && m'[Node(n, i + 1) + BLINK] == m[Node(n, i + 1) + BLINK]
  {
    if i < k { NodesApart(n, i, k); NodesApart(n, i + 1, k + 1); }
    else { NodesApart(n, k, i); NodesApart(n, k + 1, i + 1); }
    NodesSeparate(n, i, k + 1);
    NodesSeparate(n, i + 1, k);
  }

  // ---------------------------------------------------------------- bget, whole block

  ghost function WholeStores(m: seq<int>, back: nat, forth: nat, b: nat, size: nat): (r: seq<int>)
    requires back + MIN_BLOCK <= |m| && forth + MIN_BLOCK <= |m| && b + size + WORD <= |m| && size >= HEADER
    ensures |r| == |m|
  {
    var m2 := UnlinkStores(m, back, forth);
    Store(Store(m2, b + BSIZE, -(size as int)), b + size + PREVFREE, 0)
  }

  lemma WholeBefore(m: seq<int>, h: Heap, k: nat, need: nat)
    requires Encodes(m, h) && CanCarve(h, k, need)
    requires h.blocks[Slot(h, k)].size - need <= SIZE_Q + HEADER
    ensures var n := Carve(h, k, need).0; var i := Slot(h, k);
            TagsOk(m, n, {i as int}, {i + 1})
  {
    WholeKeeps(h, k, need);
    var n := Carve(h, k, need).0;
    var i := Slot(h, k);
    forall q | 0 <= q <= |n.blocks| && q !in {i as int} ensures SizeOk(m, n, q) {
      assert SizeOk(m, h, q);
    }
    forall q | 0 <= q <= |n.blocks| && q !in {i + 1} ensures PrevOk(m, n, q) {
      assert PrevOk(m, h, q);
    }
  }

  lemma WholeEncodes(m: seq<int>, h: Heap, k: nat, need: nat)
    requires Encodes(m, h) && CanCarve(h, k, need)
    requires h.blocks[Slot(h, k)].size - need <= SIZE_Q + HEADER
    ensures var n := Carve(h, k, need).0; var x := h.blocks[Slot(h, k)];
            && x.start + x.size + HEADER <= |m| && x.size >= HEADER
            && Node(h, k) + MIN_BLOCK <= |m| && Node(h, k + 2) + MIN_BLOCK <= |m|
            && var m' := WholeStores(m, Node(h, k), Node(h, k + 2), x.start, x.size);
               Encodes(m', n) && Quiet(m, m', n)
  {
    WholeKeeps(h, k, need);
    WholeBefore(m, h, k, need);
    var n := Carve(h, k, need).0;
    var i := Slot(h, k);
    var x := h.blocks[i];
    assert n.blocks[i] == x.(free := false) && Dropped(h, n, k);
    UnlinkTags(m, h, n, k, {i as int}, {i + 1});
    UnlinkLinks(m, h, n, k);
    var m2 := UnlinkStores(m, Node(h, k), Node(h, k + 2));
    TakenFill(m2, n, i);
    QuietTrans(m, m2, WholeStores(m, Node(h, k), Node(h, k + 2), x.start, x.size), n);
  }

  // ---------------------------------------------------------------- brel, joining backwards

  lemma MergeBackBefore(m: seq<int>, h: Heap, i: nat)
    requires Encodes(m, h) && 0 < i < |h.blocks| && !h.blocks[i].free && h.blocks[i - 1].free
    ensures TagsOk(m, JoinBack(h, i), {i - 1}, {i as int}) && LinksOk(m, JoinBack(h, i))
  {
    MergeBackKeeps(h, i);
    var n := JoinBack(h, i);
    forall q | 0 <= q <= |n.blocks| && q !in {i - 1} ensures SizeOk(m, n, q) {
      assert SizeOk(m, h, if q < i then q else q + 1);
    }
    forall q | 0 <= q <= |n.blocks| && q !in {i as int} ensures PrevOk(m, n, q) {
      assert PrevOk(m, h, if q < i then q else q + 1);
    }
    forall q | 0 <= q <= |n.free| ensures LinkOk(m, n, q) {
      assert LinkOk(m, h, q);
    }
  }

  lemma MergeBackCoded(m: seq<int>, h: Heap, i: nat)
    requires Encodes(m, h) && 0 < i < |h.blocks| && !h.blocks[i].free && h.blocks[i - 1].free
    ensures var n := JoinBack(h, i); var y := h.blocks[i - 1];
            && y.start + HEADER <= |m|
            && var m' := Store(m, y.start + BSIZE, y.size + h.blocks[i].size);
               Coded(m', n, {i as int}) && Quiet(m, m', n)
  {
    MergeBackBefore(m, h, i);
    FillSize(m, JoinBack(h, i), i - 1, h.blocks[i - 1].size + h.blocks[i].size, {i - 1}, {i as int});
    assert {i - 1} - {i - 1} == {};
  }

  ghost function AppendStores(m: seq<int>, anchor: nat, b: nat, last: nat): (r: seq<int>)
    requires anchor + MIN_BLOCK <= |m| && b + MIN_BLOCK <= |m| && last + MIN_BLOCK <= |m|
    ensures |r| == |m|
  {
    var m1 := Store(m, b + FLINK, anchor);
    var m2 := Store(m1, b + BLINK, last);
    var m3 := Store(m2, anchor + BLINK, b);
    Store(m3, last + FLINK, b)
  }

  /** `n` lists one more node than `h`, at the end. */
  predicate Appended(h: Heap, n: Heap, b: nat) {
    n.anchor == h.anchor && n.free == h.free + [b]
  }

  lemma AppendTags(m: seq<int>, h: Heap, n: Heap, b: nat, sizeHoles: set<int>, prevHoles: set<int>)
    requires TagsOk(m, n, sizeHoles, prevHoles) && Appended(h, n, b)
    ensures Node(h, |h.free|) + MIN_BLOCK <= |m| && b + MIN_BLOCK <= |m| && h.anchor + MIN_BLOCK <= |m|
    ensures TagsOk(AppendStores(m, h.anchor, b, Node(h, |h.free|)), n, sizeHoles, prevHoles)
    ensures Quiet(m, AppendStores(m, h.anchor, b, Node(h, |h.free|)), n)
  {
    var f := |h.free|;
    var last := Node(h, f);
    assert Node(n, f) == last && Node(n, f + 1) == b && Node(n, f + 2) == h.anchor;
    LinkStore(m, n, f + 1, FLINK, h.anchor, sizeHoles, prevHoles);
    var m1 := Store(m, b + FLINK, h.anchor);
    LinkStore(m1, n, f + 1, BLINK, last, sizeHoles, prevHoles);
    var m2 := Store(m1, b + BLINK, last);
    LinkStore(m2, n, f + 2, BLINK, b, sizeHoles, prevHoles);
    var m3 := Store(m2, h.anchor + BLINK, b);
    LinkStore(m3, n, f, FLINK, b, sizeHoles, prevHoles);
    QuietTrans(m, m1, m2, n);
    QuietTrans(m, m2, m3, n);
    QuietTrans(m, m3, Store(m3, last + FLINK, b), n);
  }

  lemma AppendLinks(m: seq<int>, h: Heap, n: Heap, b: nat)
    requires LinksOk(m, h) && InBounds(m, n) && Listed(n) && Appended(h, n, b)
    requires Node(h, |h.free|) + MIN_BLOCK <= |m| && b + MIN_BLOCK <= |m| && h.anchor + MIN_BLOCK <= |m|
    ensures LinksOk(AppendStores(m, h.anchor, b, Node(h, |h.free|)), n)
  {
    var f := |h.free|;
    assert Node(n, f) == Node(h, f) && Node(n, f + 1) == b && Node(n, f + 2) == h.anchor;
    var m' := AppendStores(m, h.anchor, b, Node(h, f));
    NodesApart(n, f, f + 1);
    NodesApart(n, 0, f + 1);
    if 0 < f { NodesApart(n, 0, f); }
    forall i | 0 <= i <= |n.free| ensures LinkOk(m', n, i) {
      if i < f {
        assert LinkOk(m, h, i);
        assert Node(n, i) == Node(h, i) && Node(n, i + 1) == Node(h, i + 1);
        AppendKeepsLink(m, n, i, Node(h, i + 1), Node(h, i));
      }
    }
  }

  /** The append stores miss the link between nodes `i` and `i + 1` for every earlier pair. */
  lemma AppendKeepsLink(m: seq<int>, n: Heap, i: nat, forth: int, back: int)
    requires InBounds(m, n) && Listed(n) && |n.free| > 0 && i < |n.free| - 1
    requires Node(n, i) + MIN_BLOCK <= |m| && Node(n, i + 1) + MIN_BLOCK <= |m|
    requires m[Node(n, i) + FLINK] == forth && m[Node(n, i + 1) + BLINK] == back
    requires n.anchor + MIN_BLOCK <= |m| && Node(n, |n.free|) + MIN_BLOCK <= |m| && Node(n, |n.free| - 1) + MIN_BLOCK <= |m|
    ensures var f := |n.free| - 1; var m' := AppendStores(m, n.anchor, Node(n, f + 1), Node(n, f));
            m'[Node(n, i) + FLINK] == forth && m'[Node(n, i + 1) + BLINK] == back
  {
    var f := |n.free| - 1;
    NodesApart(n, i, f);
    NodesApart(n, i, f + 1);
    NodesApart(n, i + 1, f + 1);
    NodesApart(n, 0, i + 1);
    NodesApart(n, 0, f + 1);
    NodesApart(n, 0, f);
    if i + 1 < f { NodesApart(n, i + 1, f); }
    if i > 0 { NodesApart(n, 0, i); }
  }

  lemma AppendCoded(m: seq<int>, h: Heap, i: nat)
    requires Encodes(m, h) && i < |h.blocks| && !h.blocks[i].free && !(i > 0 && h.blocks[i - 1].free)
    ensures var n := JoinBack(h, i); var x := h.blocks[i]; var last := Node(h, |h.free|);
            && h.anchor + MIN_BLOCK <= |m| && x.start + MIN_BLOCK <= |m| && last + MIN_BLOCK <= |m|
            && var m' := Store(AppendStores(m, h.anchor, x.start, last), x.start + BSIZE, x.size);
               Coded(m', n, {i + 1}) && Quiet(m, m', n)
  {
    AppendKeeps(h, i);
    var n := JoinBack(h, i);
    var x := h.blocks[i];
    forall q | 0 <= q <= |n.blocks| && q !in {i as int} ensures SizeOk(m, n, q) {
      assert SizeOk(m, h, q);
    }
    forall q | 0 <= q <= |n.blocks| && q !in {i + 1} ensures PrevOk(m, n, q) {
      assert PrevOk(m, h, q);
    }
    AppendTags(m, h, n, x.start, {i as int}, {i + 1});
    AppendLinks(m, h, n, x.start);
    var m1 := AppendStores(m, h.anchor, x.start, Node(h, |h.free|));
    FillSize(m1, n, i, x.size, {i as int}, {i + 1});
    assert {i as int} - {i as int} == {};
    QuietTrans(m, m1, Store(m1, x.start + BSIZE, x.size), n);
  }

  // ---------------------------------------------------------------- brel, joining forwards

  lemma MergeNextBefore(m: seq<int>, h: Heap, j: nat)
    requires Loose(h) && Coded(m, h, {j + 1}) && FreeOnlyAfter(h, j)
    requires j + 1 < |h.blocks| && h.blocks[j].free && h.blocks[j + 1].free
    ensures TagsOk(m, JoinNext(h, j), {j as int}, {j + 1})
  {
    JoinNextKeeps(h, j);
    var n := JoinNext(h, j);
    assert BlockOk(h, j) && BlockOk(h, j + 1);
    forall q | 0 <= q <= |n.blocks| && q !in {j as int} ensures SizeOk(m, n, q) {
      assert SizeOk(m, h, if q <= j then q else q + 1);
    }
    forall q | 0 <= q <= |n.blocks| && q !in {j + 1} ensures PrevOk(m, n, q) {
      assert PrevOk(m, h, if q <= j then q else q + 1);
    }
  }

  lemma MergeNextCoded(m: seq<int>, h: Heap, j: nat, k: nat)
    requires Loose(h) && Coded(m, h, {j + 1}) && FreeOnlyAfter(h, j)
    requires j + 1 < |h.blocks| && h.blocks[j].free && h.blocks[j + 1].free
    requires k < |h.free| && h.free[k] == h.blocks[j + 1].start
    ensures var n := JoinNext(h, j); var y := h.blocks[j];
            && Node(h, k) + MIN_BLOCK <= |m| && Node(h, k + 2) + MIN_BLOCK <= |m| && y.start + HEADER <= |m|
            && var m' := Store(UnlinkStores(m, Node(h, k), Node(h, k + 2)), y.start + BSIZE, y.size + h.blocks[j + 1].size);
               Coded(m', n, {j + 1}) && Quiet(m, m', n)
  {
    JoinNextKeeps(h, j);
    WithoutAt(h.free, k);
    MergeNextBefore(m, h, j);
    var n := JoinNext(h, j);
    var y := h.blocks[j];
    assert Dropped(h, n, k);
    UnlinkTags(m, h, n, k, {j as int}, {j + 1});
    UnlinkLinks(m, h, n, k);
    var m1 := UnlinkStores(m, Node(h, k), Node(h, k + 2));
    FillSize(m1, n, j, y.size + h.blocks[j + 1].size, {j as int}, {j + 1});
    assert {j as int} - {j as int} == {};
    QuietTrans(m, m1, Store(m1, y.start + BSIZE, y.size + h.blocks[j + 1].size), n);
  }

  /** Filling in the one missing back tag completes the encoding. */
  lemma LastFill(m: seq<int>, h: Heap, j: nat)
    requires WellFormed(h) && j < |h.blocks| && Coded(m, h, {j + 1}) && h.blocks[j].free
    ensures HeadAt(h, j + 1) + HEADER <= |m|
    ensures var m' := Store(m, HeadAt(h, j + 1) + PREVFREE, h.blocks[j].size);
            Encodes(m', h) && Quiet(m, m', h)
  {
    FillPrev(m, h, j + 1, h.blocks[j].size, {}, {j + 1});
    assert {j + 1} - {j + 1} == {};
  }

  // ---------------------------------------------------------------- bpool

  ghost function PoolStores(m: seq<int>, anchor: nat, b: nat, len: nat): (r: seq<int>)
    requires anchor + MIN_BLOCK <= b && b + len + HEADER <= |m| && len >= MIN_BLOCK
    ensures |r| == |m|
  {
    var m1 := Store(m, b + PREVFREE, 0);
    var m2 := AppendStores(m1, anchor, b, anchor);
    var m3 := Store(m2, b + BSIZE, len);
    var m4 := Store(m3, b + len + PREVFREE, len);
    Store(m4, b + len + BSIZE, ESENT)
  }

  /** The new pool's header with a clear back tag; nothing else of it is written yet. */
  lemma PoolTagged(m: seq<int>, anchor: nat, b: nat, len: nat)
    requires anchor > 0 && anchor % 4 == 0 && b % 4 == 0 && len % 4 == 0
    requires anchor + MIN_BLOCK <= b && len >= MIN_BLOCK && b + len + HEADER <= |m|
    ensures var h := Fresh(anchor, b, len + HEADER); var m1 := Store(m, b + PREVFREE, 0);
            TagsOk(m1, h, {0, 1}, {1}) && Quiet(m, m1, h)
  {
    var h := Fresh(anchor, b, len + HEADER);
    FreshWellFormed(anchor, b, len + HEADER);
    assert TagsOk(m, h, {0, 1}, {0, 1});
    FillPrev(m, h, 0, 0, {0, 1}, {0, 1});
    assert {0, 1} - {0} == {1};
  }

  lemma PoolLinked(m: seq<int>, anchor: nat, b: nat, len: nat)
    requires anchor > 0 && anchor % 4 == 0 && b % 4 == 0 && len % 4 == 0
    requires anchor + MIN_BLOCK <= b && len >= MIN_BLOCK && b + len + HEADER <= |m|
    requires m[anchor + FLINK] == anchor && m[anchor + BLINK] == anchor
    ensures var h := Fresh(anchor, b, len + HEADER);
            var m2 := AppendStores(Store(m, b + PREVFREE, 0), anchor, b, anchor);
            TagsOk(m2, h, {0, 1}, {1}) && LinksOk(m2, h) && Quiet(m, m2, h)
  {
    var h := Fresh(anchor, b, len + HEADER);
    FreshWellFormed(anchor, b, len + HEADER);
    PoolTagged(m, anchor, b, len);
    var m1 := Store(m, b + PREVFREE, 0);
    var none := h.(free := []);
    assert BlockOk(h, 0);
    assert BlockOk(none, 0);
    hide Quiet;
    AppendTags(m1, none, h, b, {0, 1}, {1});
    assert LinkOk(m1, none, 0);
    AppendLinks(m1, none, h, b);
    QuietTrans(m, m1, AppendStores(m1, anchor, b, anchor), h);
  }

  lemma PoolEncodes(m: seq<int>, anchor: nat, b: nat, len: nat)
    requires anchor > 0 && anchor % 4 == 0 && b % 4 == 0 && len % 4 == 0
    requires anchor + MIN_BLOCK <= b && len >= MIN_BLOCK && b + len + HEADER <= |m|
    requires m[anchor + FLINK] == anchor && m[anchor + BLINK] == anchor
    ensures Encodes(PoolStores(m, anchor, b, len), Fresh(anchor, b, len + HEADER))
    ensures Quiet(m, PoolStores(m, anchor, b, len), Fresh(anchor, b, len + HEADER))
  {
    var h := Fresh(anchor, b, len + HEADER);
    FreshWellFormed(anchor, b, len + HEADER);
    PoolLinked(m, anchor, b, len);
    var m2 := AppendStores(Store(m, b + PREVFREE, 0), anchor, b, anchor);
    PoolFilled(m2, h, len);
    QuietTrans(m, m2, PoolStores(m, anchor, b, len), h);
  }

  lemma PoolFilled(m: seq<int>, h: Heap, len: nat)
    requires |h.blocks| == 1 && h.blocks[0] == Block(h.base, len, true) && h.end == h.base + len
    requires TagsOk(m, h, {0, 1}, {1}) && LinksOk(m, h)
    ensures var m3 := Store(m, h.base + BSIZE, len);
            var m4 := Store(m3, h.base + len + PREVFREE, len);
            var m5 := Store(m4, h.base + len + BSIZE, ESENT);
            Coded(m5, h, {}) && Quiet(m, m5, h)
  {
    assert BlockOk(h, 0);
    assert {0, 1} - {0} == {1} && {1} - {1} == {};
    FillSize(m, h, 0, len, {0, 1}, {1});
    var m3 := Store(m, h.base + BSIZE, len);
    FillPrev(m3, h, 1, len, {1}, {1});
    var m4 := Store(m3, h.base + len + PREVFREE, len);
    FillSize(m4, h, 1, ESENT, {1}, {});
    QuietTrans(m, m3, m4, h);
    QuietTrans(m, m4, Store(m4, h.base + len + BSIZE, ESENT), h);
  }
}

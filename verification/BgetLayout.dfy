/** The layout of the kernel heap as a value: a row of blocks and a free list.
    Sizes, addresses and constants are the bytes of the i386 build
    (header 8, queue links 8, allocation quantum 4). */
module BgetLayout {
  import opened Basics

  const HEADER: nat := 8      // sizeof(struct bhead): prevfree, bsize
  const SIZE_Q: nat := 8      // sizeof(struct qlinks): flink, blink
  const QUANTUM: nat := 4     // SizeQuant
  const MIN_BLOCK: nat := HEADER + SIZE_Q
  const MAX_BUFSIZE: nat := 0x7fff_ffff
  const MAX_REQUEST: nat := MAX_BUFSIZE - 11   // largest request whose rounding stays in a bufsize

  datatype Block = Block(start: nat, size: nat, free: bool) {
    function Stop(): nat { start + size }
  }

  /** `anchor` is the address of the static list head, `free` the list order. */
  datatype Heap = Heap(anchor: nat, base: nat, end: nat, blocks: seq<Block>, free: seq<nat>)

  /** Where header number `i` lies; the one after the last block is the end sentinel. */
  function HeadAt(h: Heap, i: nat): nat
    requires i <= |h.blocks|
  {
    if i < |h.blocks| then h.blocks[i].start else h.end
  }

  /** Block `i` is aligned, large enough, and ends where the next header begins. */
  predicate BlockOk(h: Heap, i: nat)
    requires i < |h.blocks|
  {
    && h.blocks[i].start % 4 == 0
    && h.blocks[i].size % 4 == 0
    && h.blocks[i].size >= MIN_BLOCK
    && h.blocks[i].Stop() == HeadAt(h, i + 1)
  }

  /** The blocks tile the pool from its base to the end sentinel. */
  predicate Tiled(h: Heap) {
    && |h.blocks| > 0
    && h.blocks[0].start == h.base
    && (forall i :: 0 <= i < |h.blocks| ==> BlockOk(h, i))
  }

  predicate BothFree(h: Heap, i: nat)
    requires i + 1 < |h.blocks|
  {
    h.blocks[i].free && h.blocks[i + 1].free
  }

  predicate NoAdjacentFree(h: Heap) {
    forall i :: 0 <= i < |h.blocks| - 1 ==> !BothFree(h, i)
  }

  predicate FreeAt(h: Heap, a: nat) {
    exists i :: 0 <= i < |h.blocks| && h.blocks[i].start == a && h.blocks[i].free
  }

  predicate UsedAt(h: Heap, a: nat) {
    exists i :: 0 <= i < |h.blocks| && h.blocks[i].start == a && !h.blocks[i].free
  }

  predicate Covered(h: Heap, i: nat)
    requires i < |h.blocks|
  {
    h.blocks[i].free ==> h.blocks[i].start in h.free
  }

  /** The free list holds exactly the free blocks, each once. */
  predicate Listed(h: Heap) {
    && NoDup(h.free)
    && (forall k :: 0 <= k < |h.free| ==> FreeAt(h, h.free[k]))
    && (forall i :: 0 <= i < |h.blocks| ==> Covered(h, i))
  }

  /** The static list head lies below the pool, clear of address 0. */
  predicate Placed(h: Heap) {
    && h.anchor > 0
    && h.anchor % 4 == 0
    && h.anchor + MIN_BLOCK <= h.base <= h.end
  }

  predicate Loose(h: Heap) { Placed(h) && Tiled(h) && Listed(h) }

  predicate WellFormed(h: Heap) { Loose(h) && NoAdjacentFree(h) }

  // ---------------------------------------------------------------- positions

  lemma {:induction false} Apart(h: Heap, i: nat, j: nat)
    requires Tiled(h) && i < j <= |h.blocks|
    ensures h.blocks[i].Stop() <= HeadAt(h, j)
    decreases j - i
  {
    assert BlockOk(h, i);
    if i + 1 < j {
      assert BlockOk(h, i + 1);
      Apart(h, i + 1, j);
    }
  }

  lemma ApartAll(h: Heap)
    requires Tiled(h)
    ensures forall i, j :: 0 <= i < j < |h.blocks| ==> h.blocks[i].start + h.blocks[i].size <= h.blocks[j].start
    ensures forall i :: 0 <= i < |h.blocks| ==> h.base <= h.blocks[i].start && h.blocks[i].start + h.blocks[i].size <= h.end
  {
    forall i, j | 0 <= i < j < |h.blocks|
      ensures h.blocks[i].start + h.blocks[i].size <= h.blocks[j].start
    {
      Apart(h, i, j);
    }
    forall i | 0 <= i < |h.blocks|
      ensures h.base <= h.blocks[i].start && h.blocks[i].start + h.blocks[i].size <= h.end
    {
      Apart(h, i, |h.blocks|);
      if i > 0 { Apart(h, 0, i); }
    }
  }

  lemma SameStart(h: Heap, i: nat, j: nat)
    requires Tiled(h) && i < |h.blocks| && j < |h.blocks|
    requires h.blocks[i].start == h.blocks[j].start
    ensures i == j
  {
    assert BlockOk(h, i) && BlockOk(h, j);
    if i < j { Apart(h, i, j); }
    if j < i { Apart(h, j, i); }
  }

  /** The number of the block that starts at `a`. */
  ghost function IndexOf(h: Heap, a: nat): (i: nat)
    requires FreeAt(h, a) || UsedAt(h, a)
    ensures i < |h.blocks| && h.blocks[i].start == a
  {
    var i :| 0 <= i < |h.blocks| && h.blocks[i].start == a;
    i
  }

  lemma IndexUnique(h: Heap, i: nat)
    requires Tiled(h) && i < |h.blocks|
    ensures FreeAt(h, h.blocks[i].start) || UsedAt(h, h.blocks[i].start)
    ensures IndexOf(h, h.blocks[i].start) == i
    ensures h.blocks[i].free <==> FreeAt(h, h.blocks[i].start)
    ensures !h.blocks[i].free <==> UsedAt(h, h.blocks[i].start)
  {
    var a := h.blocks[i].start;
    forall j | 0 <= j < |h.blocks| && h.blocks[j].start == a ensures j == i {
      SameStart(h, i, j);
    }
  }

  /** The block number of the k-th entry of the free list. */
  ghost function Slot(h: Heap, k: nat): (i: nat)
    requires k < |h.free| && FreeAt(h, h.free[k])
    ensures i < |h.blocks| && h.blocks[i].start == h.free[k] && h.blocks[i].free
  {
    var i :| 0 <= i < |h.blocks| && h.blocks[i].start == h.free[k] && h.blocks[i].free;
    i
  }

  // ---------------------------------------------------------------- bget

  /** Bytes taken by a request: room for the queue links, rounded up to the quantum, plus a header. */
  function Need(request: nat): nat {
    var size := if request < SIZE_Q then SIZE_Q else request;
    (size + 3) - (size + 3) % 4 + HEADER
  }

  lemma NeedBounds(request: nat)
    ensures Need(request) % 4 == 0 && Need(request) >= MIN_BLOCK
    ensures request + HEADER <= Need(request)
    ensures SIZE_Q <= request ==> Need(request) < request + HEADER + QUANTUM
    ensures Need(request) <= MAX_BUFSIZE <==> request <= MAX_REQUEST
  {
  }

  /** A 32-bit word read as signed. */
  function Signed(x: int): int { if Low32(x) < 0x8000_0000 then Low32(x) else Low32(x) - TWO32 }

  /** The size sought as the processor computes it, in a signed 32-bit word; clearing the low two bits
      of a word is taking off its remainder modulo four. */
  function Need32(request: int): int {
    var size := if request < SIZE_Q then SIZE_Q else request;
    var up := Signed(size + 3);
    Signed(up - up % 4 + HEADER)
  }

  /** The processor's size is the size meant if and only if the request is within the limit; above it
      the sum has left the word and the size is negative, so that every free block seems to fit. */
  lemma Need32Exact(request: nat)
    requires 0 < request < 0x8000_0000
    ensures Need32(request) == Need(request) <==> request <= MAX_REQUEST
    ensures request > MAX_REQUEST ==> Need32(request) < 0
  {}

  /** The least such request. */
  lemma Need32Fails()
    ensures Need32(MAX_REQUEST + 1) == -0x8000_0000
  {}

  ghost predicate Fits(h: Heap, need: nat, k: nat)
    requires k < |h.free| && FreeAt(h, h.free[k])
  {
    h.blocks[Slot(h, k)].size >= need
  }

  /** The best of the first `k` list entries: the first among the smallest that fit. */
  ghost function BestOf(h: Heap, need: nat, k: nat): (best: Option<nat>)
    requires Listed(h) && k <= |h.free|
    ensures best.Some? ==> best.value < k
  {
    if k == 0 then None
    else
      var best := BestOf(h, need, k - 1);
      if Fits(h, need, k - 1)
         && (best.None? || h.blocks[Slot(h, k - 1)].size < h.blocks[Slot(h, best.value)].size)
      then Some(k - 1)
      else best
  }

  /** Take `need` bytes from list entry `k`: the tail of the block when more than
      a header and the queue links would remain, the whole block otherwise. */
  ghost function Carve(h: Heap, k: nat, need: nat): (r: (Heap, nat))
    requires Listed(h) && k < |h.free| && Fits(h, need, k)
  {
    var i := Slot(h, k);
    var x := h.blocks[i];
    if x.size - need > SIZE_Q + HEADER then
      var rest := Block(x.start, x.size - need, true);
      var taken := Block(x.start + x.size - need, need, false);
      (h.(blocks := h.blocks[..i] + [rest, taken] + h.blocks[i + 1..]), taken.start + HEADER)
    else
      (h.(blocks := h.blocks[i := x.(free := false)], free := h.free[..k] + h.free[k + 1..]), x.start + HEADER)
  }

  ghost function Alloc(h: Heap, request: nat): (r: (Heap, Option<nat>))
    requires Listed(h)
  {
    var need := Need(request);
    match BestOf(h, need, |h.free|)
    case None => (h, None)
    case Some(k) =>
      BestFitsAt(h, need, |h.free|);
      var (h', p) := Carve(h, k, need);
      (h', Some(p))
  }

  lemma {:induction false} BestFitsAt(h: Heap, need: nat, k: nat)
    requires Listed(h) && k <= |h.free|
    ensures BestOf(h, need, k).Some? ==> Fits(h, need, BestOf(h, need, k).value)
  {
    if k > 0 { BestFitsAt(h, need, k - 1); }
  }

  // ---------------------------------------------------------------- brel

  /** First half of a release: join block `i` to a free predecessor, or append it to the list. */
  ghost function JoinBack(h: Heap, i: nat): Heap
    requires i < |h.blocks|
  {
    var x := h.blocks[i];
    if i > 0 && h.blocks[i - 1].free then
      var y := h.blocks[i - 1];
      h.(blocks := h.blocks[..i - 1] + [Block(y.start, y.size + x.size, true)] + h.blocks[i + 1..])
    else
      h.(blocks := h.blocks[i := x.(free := true)], free := h.free + [x.start])
  }

  /** Second half: absorb a free successor of block `j` and take it off the list. */
  ghost function JoinNext(h: Heap, j: nat): Heap
    requires j < |h.blocks|
  {
    if j + 1 < |h.blocks| && h.blocks[j + 1].free then
      var y := h.blocks[j];
      var z := h.blocks[j + 1];
      h.(blocks := h.blocks[..j] + [Block(y.start, y.size + z.size, y.free)] + h.blocks[j + 2..],
         free := Without(h.free, z.start))
    else h
  }

  function Without(s: seq<nat>, a: nat): (r: seq<nat>) {
    if s == [] then [] else if s[0] == a then s[1..] else [s[0]] + Without(s[1..], a)
  }

  /** The block number the released block ends up in after the first half. */
  ghost function Joined(h: Heap, i: nat): nat
    requires i < |h.blocks|
  {
    if i > 0 && h.blocks[i - 1].free then i - 1 else i
  }

  ghost function ReleaseBlock(h: Heap, i: nat): Heap
    requires i < |h.blocks|
  {
    JoinNext(JoinBack(h, i), Joined(h, i))
  }

  /** `p` is the address of a live buffer. */
  predicate Live(h: Heap, p: nat) { p >= HEADER && UsedAt(h, p - HEADER) }

  ghost function Release(h: Heap, p: nat): Heap
    requires Live(h, p)
  {
    ReleaseBlock(h, IndexOf(h, p - HEADER))
  }

  /** The pool just after `bpool`: one free block up to the end sentinel. */
  function Fresh(anchor: nat, base: nat, len: nat): Heap
    requires len >= HEADER
  {
    Heap(anchor, base, base + (len - HEADER), [Block(base, len - HEADER, true)], [base])
  }
}

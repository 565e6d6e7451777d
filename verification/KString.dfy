/** The byte copy of the kernel's string functions, on a memory with one cell per byte. */
module KString {

  /** Memory after copying `n` bytes one by one, forwards. */
  function Copied(mem: seq<int>, dst: nat, src: nat, n: nat): (after: seq<int>)
    requires dst + n <= |mem| && src + n <= |mem|
    ensures |after| == |mem|
  {
    if n == 0 then mem else
      var m := Copied(mem, dst, src, n - 1);
      m[dst + n - 1 := m[src + n - 1]]
  }

  /** What is left of `i` when `d` is taken off as often as it goes. */
  function Rest(i: nat, d: nat): (r: nat)
    requires d > 0
    ensures r < d && r <= i
  {
    if i < d then i else Rest(i - d, d)
  }

  /** Nothing but the destination changes, and it holds the source's bytes; if it begins inside the
      source, the bytes before it over and over. */
  lemma {:induction false} CopiedAt(mem: seq<int>, dst: nat, src: nat, n: nat, c: nat)
    requires dst + n <= |mem| && src + n <= |mem| && c < |mem|
    ensures Copied(mem, dst, src, n)[c] ==
            if dst <= c < dst + n then mem[src + (if src < dst then Rest(c - dst, dst - src) else c - dst)] else mem[c]
    decreases n
  {
    if n > 0 {
      CopiedAt(mem, dst, src, n - 1, if c == dst + n - 1 then src + n - 1 else c);
    }
  }

  /** A destination that does not begin inside the source gets exactly the source's bytes. */
  lemma CopiedApart(mem: seq<int>, dst: nat, src: nat, n: nat)
    requires dst + n <= |mem| && src + n <= |mem| && (dst <= src || src + n <= dst)
    ensures Copied(mem, dst, src, n)[dst..dst + n] == mem[src..src + n]
    ensures forall c :: 0 <= c < |mem| && !(dst <= c < dst + n) ==> Copied(mem, dst, src, n)[c] == mem[c]
  {
    forall c | 0 <= c < |mem|
      ensures Copied(mem, dst, src, n)[c] == if dst <= c < dst + n then mem[src + (c - dst)] else mem[c]
    {
      CopiedAt(mem, dst, src, n, c);
    }
  }

  method Memcpy(mem: array<int>, dst: nat, src: nat, n: nat)
    requires dst + n <= mem.Length && src + n <= mem.Length
    modifies mem
    ensures mem[..] == Copied(old(mem[..]), dst, src, n)
  {
    var i := 0;
    while i < n
      invariant 0 <= i <= n && mem[..] == Copied(old(mem[..]), dst, src, i)
    {
      assert mem[..][src + i] == mem[src + i];
      mem[dst + i] := mem[src + i];
      i := i + 1;
    }
  }
}

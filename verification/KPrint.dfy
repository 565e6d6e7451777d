/** Number printing and parsing: the printer's loops against positional notation, the parsers as
    its inverses, the padding of fields and the bound on the number buffer. */
module KPrint {
  import opened Basics
  import opened Digits

  const INT_MAX: int := 0x7FFF_FFFF
  const NUM_BUF_SIZE: nat := 12
  const NUL: char := '\0'

  // ---------------------------------------------------------------- digits as characters

  function DigitChar(d: nat, uppercase: bool): (c: char)
    requires d < 16
  {
    (d + (if d < 10 then '0' as int else (if uppercase then 'A' else 'a') as int - 10)) as char
  }

  /** The value of a digit character, or -1. */
  function A2d(c: char): int {
    if '0' <= c <= '9' then c as int - '0' as int
    else if 'a' <= c <= 'f' then c as int - 'a' as int + 10
    else if 'A' <= c <= 'F' then c as int - 'A' as int + 10
    else -1
  }

  /** Printing a digit and reading it back. */
  lemma DigitRoundTrip(d: nat, uppercase: bool)
    requires d < 16
    ensures A2d(DigitChar(d, uppercase)) == d && DigitChar(d, uppercase) != NUL
  {}

  /** The digits are those of the two tables, and only they have a value. */
  lemma DigitTable(d: nat, c: char)
    requires d < 16
    ensures DigitChar(d, true) == "0123456789ABCDEF"[d] && DigitChar(d, false) == "0123456789abcdef"[d]
    ensures A2d("0123456789ABCDEF"[d]) == A2d("0123456789abcdef"[d]) == d
    ensures A2d(c) >= 0 <==> '0' <= c <= '9' || 'A' <= c <= 'F' || 'a' <= c <= 'f'
    ensures A2d(c) < 0 ==> A2d(c) == -1
  {}

  function Text(q: seq<nat>, uppercase: bool): (s: string)
    requires forall i :: 0 <= i < |q| ==> q[i] < 16
    ensures |s| == |q|
  {
    seq(|q|, i requires 0 <= i < |q| => DigitChar(q[i], uppercase))
  }

  /** What a number looks like in a base. */
  function Render(n: nat, base: nat, uppercase: bool): string
    requires 2 <= base <= 16
  {
    DigitsProper(n, base);
    Text(DigitsOf(n, base), uppercase)
  }

  // ---------------------------------------------------------------- printing

  lemma ScaleUp(num: nat, d: nat, base: nat)
    requires d > 0 && base >= 2
    ensures num / d >= base ==> d * base <= num && d * base == base * d && d < d * base
    ensures num / d < base ==> num < base * d
  {
    DivMod(num, d);
    MulLeast(d, base);
    assert d * base == base * d;
    if num / d >= base {
      MulLeast(base - 1, d);
      MulMinus(base, 1, d);
      if num / d > base { MulLess(base, num / d, d); }
    } else {
      MulLess(num / d, base, d);
    }
  }

  lemma PowDown(base: nat, k: nat)
    requires base >= 2
    ensures Pow(base, k) >= 1 && Pow(base, k + 1) / base == Pow(base, k) && 1 / base == 0
  {
    PowPositive(base, k);
    assert Pow(base, k + 1) == Pow(base, k) * base;
    DivModUnique(Pow(base, k + 1), base, Pow(base, k), 0);
    DivModUnique(1, base, 0, 1);
  }

  lemma ScaleOne(base: nat, k: nat)
    ensures Pow(base, 0) == 1 && Pow(base, k + 1) == base * Pow(base, k)
  {}

  /** The digits still to be printed: `left` of them, of what is left of the number, under the power `d`. */
  predicate ToPrint(q: seq<nat>, n: nat, num: nat, base: nat, left: nat, d: nat)
    requires 2 <= base
  {
    n + left == |q| && q[n..] == Fixed(num, base, left) && d == if left == 0 then 0 else Pow(base, left - 1)
  }

  /** Before the first digit. */
  lemma PrintStarts(num: nat, base: nat, k: nat)
    requires 2 <= base <= 16 && num < Pow(base, k + 1) && (k == 0 || Pow(base, k) <= num)
    ensures ToPrint(DigitsOf(num, base), 0, num, base, k + 1, Pow(base, k))
    ensures ProperDigits(DigitsOf(num, base), num, base)
  {
    FixedIsDigits(num, base, k);
    FixedLength(num, base, k + 1);
    DigitsProper(num, base);
    assert DigitsOf(num, base)[0..] == DigitsOf(num, base);
  }

  predicate ProperDigits(q: seq<nat>, num: nat, base: nat) {
    |q| >= 1 && (forall i :: 0 <= i < |q| ==> q[i] < base) && (q[0] == 0 <==> num == 0)
  }

  /** One digit is printed. */
  lemma PrintsOne(q: seq<nat>, n: nat, num: nat, base: nat, left: nat, d: nat, num0: nat)
    requires 2 <= base <= 16 && ToPrint(q, n, num, base, left, d) && d != 0 && ProperDigits(q, num0, base)
    ensures left > 0 && n < |q| && Div(num, d) == q[n] && q[n] < base
    ensures ToPrint(q, n + 1, Rem(num, d), base, left - 1, Div(d, base))
    ensures (num0 != 0 || |q| == 1) ==> n > 0 || q[n] > 0 || Div(d, base) == 0
  {
    assert q[n..][0] == q[n] && q[n..][1..] == q[n + 1..];
    PowPositive(base, left - 1);
    if left >= 2 { PowDown(base, left - 2); } else { PowDown(base, 0); }
  }

  lemma PrintDone(q: seq<nat>, n: nat, num: nat, base: nat, left: nat, d: nat)
    requires 2 <= base && ToPrint(q, n, num, base, left, d)
    ensures d == 0 <==> n == |q|
  {
    if left > 0 { PowPositive(base, left - 1); }
  }

  lemma RenderIs(q: seq<nat>, num: nat, base: nat, uppercase: bool, s: string)
    requires 2 <= base <= 16 && q == DigitsOf(num, base) && |s| == |q| && ProperDigits(q, num, base)
    requires forall i :: 0 <= i < |q| ==> s[i] == DigitChar(q[i], uppercase)
    ensures s == Render(num, base, uppercase)
  {
    DigitsProper(num, base);
  }

  /** A number and how many digits it has: only zero has a leading zero, alone. */
  lemma ZeroAlone(num: nat, base: nat)
    requires 2 <= base
    ensures num != 0 || |DigitsOf(num, base)| == 1
  {}

  /** The power of the base at the first digit. The search overflows 32 bits nowhere. */
  method TopPower(num: nat, base: nat) returns (d: nat, ghost k: nat)
    requires 2 <= base <= 16 && num < TWO32
    ensures d >= 1 && d == Pow(base, k) && num < Pow(base, k + 1) && (k == 0 || d <= num)
  {
    hide Pow;
    d, k := 1, 0;
    ScaleOne(base, 0);
    ScaleUp(num, d, base);
    while num / d >= base
      invariant d >= 1 && d == Pow(base, k) && (k == 0 || d <= num)
      invariant num / d >= base ==> d * base <= num && d * base == base * d && d < d * base
      invariant num / d < base ==> num < base * d
      decreases num - d
    {
      assert d * base < TWO32;
      ScaleOne(base, k);
      d := d * base;
      k := k + 1;
      ScaleUp(num, d, base);
    }
    ScaleOne(base, k);
  }

  /** Write `num0` into the buffer from `at` on, closed by a null character. */
  method Uint2str(buf: array<char>, at: nat, num0: nat, base: nat, uppercase: bool) returns (n: nat)
    requires 2 <= base <= 16 && num0 < TWO32 && at + |DigitsOf(num0, base)| < buf.Length
    modifies buf
    ensures n == |DigitsOf(num0, base)| && buf[at..at + n] == Render(num0, base, uppercase) && buf[at + n] == NUL
    ensures buf[..at] == old(buf[..at]) && buf[at + n + 1..] == old(buf[at + n + 1..])
  {
    hide DigitsOf, Render, Pow, Fixed, ToPrint, ProperDigits, Div, Rem;
    n := 0;
    ghost var k;
    var d: nat, num: nat := 0, num0;
    d, k := TopPower(num, base);
    PrintStarts(num, base, k);
    ghost var q := DigitsOf(num0, base);
    ghost var left: nat := k + 1;
    ZeroAlone(num0, base);
    while d != 0
      invariant ToPrint(q, n, num, base, left, d) && n <= |q|
      invariant forall i :: 0 <= i < n ==> buf[at + i] == DigitChar(q[i], uppercase)
      invariant buf[..at] == old(buf[..at]) && forall i :: at + |q| < i < buf.Length ==> buf[i] == old(buf[i])
      decreases left
    {
      PrintsOne(q, n, num, base, left, d, num0);
      var digit := Div(num, d);
      num := Rem(num, d);
      d := Div(d, base);
      if n > 0 || digit > 0 || d == 0 {
        buf[at + n] := DigitChar(digit, uppercase);
        n := n + 1;
      }
      left := left - 1;
    }
    PrintDone(q, n, num, base, left, d);
    buf[at + n] := NUL;
    RenderIs(q, num0, base, uppercase, buf[at..at + n]);
  }

  // ---------------------------------------------------------------- parsing

  /** Where `str2uint` stops; it lets a digit equal to the base pass. */
  predicate Stops(c: char, base: nat) { A2d(c) < 0 || A2d(c) > base }

  function Decoded(s: string): (q: seq<nat>)
    ensures |q| == |s|
  {
    seq(|s|, i requires 0 <= i < |s| => if A2d(s[i]) >= 0 then A2d(s[i]) else 0)
  }

  /** The text of `s` from `p` up to `e` is read as `num`, a machine word. */
  predicate ParsedAs(s: string, p: nat, base: nat, num: nat, e: nat) {
    && p <= e < |s| && Stops(s[e], base) && (forall i :: p <= i < e ==> !Stops(s[i], base))
    && num == Low32(Value(Decoded(s[p..e]), base))
  }

  /** The ordinary reading: the digits below the base, up to the first character that is none. */
  predicate Ordinary(s: string, p: nat, base: nat, num: nat, e: nat) {
    && p <= e < |s| && !(0 <= A2d(s[e]) < base) && (forall i :: p <= i < e ==> 0 <= A2d(s[i]) < base)
    && num == Low32(Value(Decoded(s[p..e]), base))
  }

  /** What `str2uint` reads is the ordinary reading if and only if the character after the proper
      digits is not the digit that equals the base. */
  lemma ReadsExactly(s: string, p: nat, base: nat, num: nat, e: nat, ordinary: nat, end: nat)
    requires ParsedAs(s, p, base, num, e) && Ordinary(s, p, base, ordinary, end)
    ensures num == ordinary && e == end <==> A2d(s[end]) != base
  {
    if A2d(s[end]) == base {
      assert !Stops(s[end], base);
    } else {
      assert Stops(s[end], base);
      assert e == end;
    }
  }

  /** Where it is not: in base 10 the text "1a" is read to its end, as twenty. */
  lemma BasePasses(num: nat, e: nat)
    requires ParsedAs("1a.", 0, 10, num, e)
    ensures num == 20 && e == 2 && Ordinary("1a.", 0, 10, 1, 1)
  {
    var s := "1a.";
    assert A2d(s[0]) == 1 && A2d(s[1]) == 10 && A2d(s[2]) == -1;
    assert !Stops(s[0], 10) && !Stops(s[1], 10) && Stops(s[2], 10);
    assert Decoded(s[0..0]) == [] && Decoded(s[0..1]) == [1] && Decoded(s[0..2]) == [1, 10];
    assert [1][..0] == [] && [1, 10][..1] == [1];
    assert Value([], 10) == 0 && Value([1], 10) == 1 && Value([1, 10], 10) == 20;
  }

  /** Keeping only the low 32 bits of a sum on the way makes no difference at the end. */
  lemma Low32Sum(x: int, b: nat, d: int)
    ensures Low32(Low32(x) * b + d) == Low32(x * b + d)
  {
    var k := x / 0x1_0000_0000;
    assert x == Low32(x) + 0x1_0000_0000 * k;
    assert x * b == Low32(x) * b + 0x1_0000_0000 * (k * b) by {
      MulThree(0x1_0000_0000, k, b);
      assert (Low32(x) + 0x1_0000_0000 * k) * b == Low32(x) * b + 0x1_0000_0000 * k * b;
    }
    Low32Shift(Low32(x) * b + d, k * b);
  }

  lemma Low32Shift(y: int, k: int)
    ensures Low32(y + 0x1_0000_0000 * k) == Low32(y)
  {}

  lemma DecodedMore(s: string, p: nat, e: nat, base: nat)
    requires p <= e < |s| && A2d(s[e]) >= 0
    ensures Value(Decoded(s[p..e + 1]), base) == Value(Decoded(s[p..e]), base) * base + A2d(s[e])
  {
    var q := Decoded(s[p..e + 1]);
    assert q[..|q| - 1] == Decoded(s[p..e]);
  }

  /** Read a number from position `p` of a text that holds a character that is no digit, summing in
      a machine word. */
  method Str2uint(s: string, p: nat, base: nat) returns (num: nat, e: nat)
    requires exists k :: p <= k < |s| && A2d(s[k]) < 0
    ensures ParsedAs(s, p, base, num, e)
  {
    num, e := 0, p;
    assert s[p..p] == [];
    var digit := A2d(s[e]);
    while digit >= 0
      invariant p <= e < |s| && digit == A2d(s[e]) && forall i :: p <= i < e ==> !Stops(s[i], base)
      invariant num == Low32(Value(Decoded(s[p..e]), base))
      decreases |s| - e
    {
      if digit > base {
        break;
      }
      DecodedMore(s, p, e, base);
      Low32Sum(Value(Decoded(s[p..e]), base), base, digit);
      num := Low32(num * base + digit);
      e := e + 1;
      digit := A2d(s[e]);
    }
  }

  lemma DecodedText(n: nat, base: nat, uppercase: bool)
    requires 2 <= base <= 16
    ensures Decoded(Render(n, base, uppercase)) == DigitsOf(n, base)
    ensures forall i :: 0 <= i < |Render(n, base, uppercase)| ==> 0 <= A2d(Render(n, base, uppercase)[i]) < base
  {
    DigitsProper(n, base);
    var q := DigitsOf(n, base);
    forall i | 0 <= i < |q| ensures A2d(Render(n, base, uppercase)[i]) == q[i] {
      DigitRoundTrip(q[i], uppercase);
    }
  }

  /** Round trip: a printed 32-bit number, followed by anything that stops the parser, reads back as
      itself and is read to its end. */
  lemma ParsesBack(n: nat, base: nat, uppercase: bool, s: string, p: nat, num: nat, e: nat)
    requires 2 <= base <= 16 && n < TWO32 && p + |Render(n, base, uppercase)| < |s|
    requires s[p..p + |Render(n, base, uppercase)|] == Render(n, base, uppercase)
    requires Stops(s[p + |Render(n, base, uppercase)|], base) && ParsedAs(s, p, base, num, e)
    ensures num == n && e == p + |Render(n, base, uppercase)|
  {
    hide Render, Decoded, DigitsOf, Value, Low32, A2d, ParsedAs, Stops;
    var text := Render(n, base, uppercase);
    DecodedText(n, base, uppercase);
    forall i | p <= i < p + |text| ensures !Stops(s[i], base) {
      assert s[i] == s[p..p + |text|][i - p];
      BelowPasses(s[i], base);
    }
    ParsedTo(s, p, base, num, e, p + |text|);
    ValueOfDigits(n, base);
    Low32Is(n);
  }

  lemma BelowPasses(c: char, base: nat)
    requires 0 <= A2d(c) < base
    ensures !Stops(c, base)
  {}

  /** The parser stops at the first character that stops it. */
  lemma ParsedTo(s: string, p: nat, base: nat, num: nat, e: nat, stop: nat)
    requires ParsedAs(s, p, base, num, e) && p <= stop < |s| && Stops(s[stop], base)
    requires forall i :: p <= i < stop ==> !Stops(s[i], base)
    ensures e == stop && num == Low32(Value(Decoded(s[p..stop]), base))
  {
    hide Stops, Decoded, Value, Low32;
  }

  /** On the way the parser's sum never exceeds the number, so below 2^31 its `int` does not overflow. */
  lemma ParseFits(n: nat, base: nat, uppercase: bool, i: nat)
    requires 2 <= base <= 16 && i <= |Render(n, base, uppercase)|
    ensures Value(Decoded(Render(n, base, uppercase)[..i]), base) <= n
  {
    var text := Render(n, base, uppercase);
    DecodedText(n, base, uppercase);
    assert Decoded(text[..i]) == DigitsOf(n, base)[..i];
    if i < |text| {
      PrefixValue(n, base, i);
      DivLess(n, base);
    } else {
      assert DigitsOf(n, base)[..i] == DigitsOf(n, base);
      ValueOfDigits(n, base);
    }
  }

  /** `atoi` as a sum over all characters, digits or not. */
  function AtoiSum(s: string): int {
    if s == [] then 0 else AtoiSum(s[..|s| - 1]) * 10 + s[|s| - 1] as int - '0' as int
  }

  method Atoi(s: string) returns (res: nat)
    requires NUL in s
    ensures exists e :: 0 <= e < |s| && s[e] == NUL && NUL !in s[..e] && res == Low32(AtoiSum(s[..e]))
  {
    res := 0;
    var i := 0;
    assert s[..0] == [];
    while s[i] != NUL
      invariant 0 <= i < |s| && NUL !in s[..i] && res == Low32(AtoiSum(s[..i]))
      decreases |s| - i
    {
      assert s[..i + 1][..i] == s[..i];
      Low32Sum(AtoiSum(s[..i]), 10, s[i] as int - '0' as int);
      res := Low32(res * 10 + s[i] as int - '0' as int);
      i := i + 1;
      assert s[..|s|] == s;
    }
  }

  lemma {:induction false} AtoiOfText(q: seq<nat>)
    requires forall i :: 0 <= i < |q| ==> q[i] < 10
    ensures AtoiSum(Text(q, false)) == Value(q, 10)
    decreases |q|
  {
    if q != [] {
      var r := q[..|q| - 1];
      AtoiOfText(r);
      var s := Text(q, false);
      assert s[..|s| - 1] == Text(r, false);
      DigitRoundTrip(q[|q| - 1], false);
    }
  }

  /** `atoi` inverts decimal printing. */
  lemma AtoiBack(n: nat)
    ensures AtoiSum(Render(n, 10, false)) == n && NUL !in Render(n, 10, false)
  {
    DigitsProper(n, 10);
    AtoiOfText(DigitsOf(n, 10));
    ValueOfDigits(n, 10);
    forall i | 0 <= i < |DigitsOf(n, 10)| ensures Render(n, 10, false)[i] != NUL {
      DigitRoundTrip(DigitsOf(n, 10)[i], false);
    }
  }

  /** A character that is no digit counts for its distance from '0'. */
  lemma AtoiOdd()
    ensures AtoiSum("1a") == 59 && AtoiSum("-1") == -29
  {
    assert "1a"[..1] == "1" && "-1"[..1] == "-" && "1"[..0] == "" && "-"[..0] == "";
    assert AtoiSum("1") == 1 && AtoiSum("-") == -3;
  }

  /** The largest intermediate sum of `atoi` at the character at `i`: the character is added before
      the code of '0' is taken off. */
  function AtoiPeak(s: string, i: nat): int
    requires i < |s|
  {
    AtoiSum(s[..i]) * 10 + s[i] as int
  }

  /** `atoi` of a printed number stays within `int` at every step exactly up to 2147483599. */
  lemma AtoiFits(n: nat)
    ensures (forall i :: 0 <= i < |Render(n, 10, false)| ==> AtoiPeak(Render(n, 10, false), i) <= INT_MAX) <==> n <= 2147483599
  {
    var s := Render(n, 10, false);
    var q := DigitsOf(n, 10);
    DigitsProper(n, 10);
    forall i | 0 <= i < |s| ensures AtoiPeak(s, i) == Value(q[..i], 10) * 10 + q[i] + 48 {
      assert s[..i] == Text(q[..i], false);
      AtoiOfText(q[..i]);
    }
    var last := |q| - 1;
    ValueOfDigits(n, 10);
    assert AtoiPeak(s, last) == n + 48;
    if n <= 2147483599 {
      forall i | 0 <= i < |s| ensures AtoiPeak(s, i) <= INT_MAX {
        PrefixPeak(n, i);
      }
    }
  }

  lemma PrefixPeak(n: nat, i: nat)
    requires i < |DigitsOf(n, 10)|
    ensures Value(DigitsOf(n, 10)[..i], 10) * 10 + DigitsOf(n, 10)[i] <= n
  {
    var q := DigitsOf(n, 10);
    assert q[..i + 1][..i] == q[..i];
    assert Value(q[..i + 1], 10) == Value(q[..i], 10) * 10 + q[i];
    if i + 1 < |q| {
      PrefixValue(n, 10, i + 1);
      DivLess(n, 10);
    } else {
      assert q[..i + 1] == q;
      ValueOfDigits(n, 10);
    }
  }

  // ---------------------------------------------------------------- fields

  function Copies(c: char, n: nat): (s: string)
    ensures |s| == n && forall i :: 0 <= i < n ==> s[i] == c
  {
    seq(n, i => c)
  }

  /** A text in a field of at least `pad` characters, padded on the left. */
  function Padded(text: string, pad: int, zero: bool): string {
    Copies(if zero then '0' else ' ', if pad > |text| then pad - |text| else 0) + text
  }

  /** A padded field has the width asked for, or that of its text, and ends with the text; before it
      there are zeros or blanks. */
  lemma PaddedWidth(text: string, pad: int, zero: bool)
    ensures |Padded(text, pad, zero)| == if pad > |text| then pad else |text|
    ensures Padded(text, pad, zero)[|Padded(text, pad, zero)| - |text|..] == text
    ensures forall i :: 0 <= i < |Padded(text, pad, zero)| - |text| ==> Padded(text, pad, zero)[i] == if zero then '0' else ' '
  {}

  /** Print the text of `out` up to its null character at `len`, into a field. */
  method PutString(out: string, len: nat, pad0: int, zero: bool) returns (printed: string)
    requires len < |out| && out[len] == NUL && NUL !in out[..len]
    ensures printed == Padded(out[..len], pad0, zero)
  {
    printed := [];
    var padding := if zero then '0' else ' ';
    var pad := pad0;
    var pass := 0;
    while out[pass] != NUL && pad > 0
      invariant 0 <= pass <= len && pad == (if pad0 > 0 then pad0 - pass else pad0) && (pad0 > 0 ==> pad >= 0)
      decreases len - pass
    {
      assert pass < len;
      pass := pass + 1;
      pad := pad - 1;
    }
    if pass < len { assert out[pass] == out[..len][pass]; }
    ghost var fill := if pad0 > len then pad0 - len else 0;
    assert pad > 0 ==> pad == fill;
    while pad > 0
      invariant |printed| <= fill && (pad > 0 ==> pad == fill - |printed|) && (pad <= 0 ==> |printed| == fill)
      invariant printed == Copies(padding, |printed|)
    {
      pad := pad - 1;
      printed := printed + [padding];
    }
    var i := 0;
    while out[i] != NUL
      invariant 0 <= i <= len && printed == Copies(padding, fill) + out[..i]
      decreases len - i
    {
      assert i < len;
      assert out[..i + 1] == out[..i] + [out[i]];
      printed := printed + [out[i]];
      i := i + 1;
    }
  }

  // ---------------------------------------------------------------- the number cases of the formatter

  datatype Conversion = Signed | Unsigned | Hex(upper: bool)

  /** What a conversion prints for a 32-bit argument. */
  function Printed(c: Conversion, x: int): string {
    match c
    case Signed => if x < 0 then "-" + Render(-x, 10, false) else Render(x, 10, false)
    case Unsigned => if x < 0 then [] else Render(x, 10, false)
    case Hex(upper) => if x < 0 then [] else Render(x, 16, upper)
  }

  /** The arguments a conversion takes: all of `int` or of `unsigned`. */
  predicate Argument(c: Conversion, x: int) {
    if c == Signed then -INT_MAX - 1 <= x <= INT_MAX else 0 <= x < TWO32
  }

  /** `t` is `n` in decimal: digits only, and no zero in front but for zero itself. */
  predicate Decimal(t: string, n: nat) {
    && t != "" && (forall i :: 0 <= i < |t| ==> '0' <= t[i] <= '9')
    && AtoiSum(t) == n && (t[0] == '0' ==> t == "0")
  }

  /** `t` is `n` in hexadecimal, with letters of one case. */
  predicate Hexadecimal(t: string, n: nat, upper: bool) {
    && t != "" && (forall i :: 0 <= i < |t| ==> '0' <= t[i] <= '9' || (if upper then 'A' <= t[i] <= 'F' else 'a' <= t[i] <= 'f'))
    && Value(Decoded(t), 16) == n && (t[0] == '0' ==> t == "0")
  }

  /** `t` is what the conversion should print. */
  predicate Spells(c: Conversion, x: int, t: string) {
    match c
    case Unsigned => x >= 0 && Decimal(t, x)
    case Signed => if x < 0 then t != "" && t[0] == '-' && Decimal(t[1..], -x) else Decimal(t, x)
    case Hex(upper) => x >= 0 && Hexadecimal(t, x, upper)
  }

  lemma ZeroFirst(n: nat, base: nat, uppercase: bool)
    requires base == 10 || base == 16
    ensures var t := Render(n, base, uppercase); t != "" && (t[0] == '0' ==> t == "0")
  {
    DigitsProper(n, base);
    var q, t := DigitsOf(n, base), Render(n, base, uppercase);
    if t[0] == '0' {
      DigitRoundTrip(q[0], uppercase);
      ZeroAlone(n, base);
      assert |t| == 1;
    }
  }

  lemma SpellsDecimal(n: nat)
    ensures Decimal(Render(n, 10, false), n)
  {
    AtoiBack(n);
    ZeroFirst(n, 10, false);
    DigitsProper(n, 10);
  }

  lemma SpellsHex(n: nat, upper: bool)
    ensures Hexadecimal(Render(n, 16, upper), n, upper)
  {
    DecodedText(n, 16, upper);
    ValueOfDigits(n, 16);
    ZeroFirst(n, 16, upper);
    DigitsProper(n, 16);
  }

  /** Every conversion prints its argument. */
  lemma PrintedSpells(c: Conversion, x: int)
    requires Argument(c, x)
    ensures Spells(c, x, Printed(c, x))
  {
    hide Render, Decimal, Hexadecimal;
    match c
    case Hex(upper) => SpellsHex(x, upper);
    case Unsigned => SpellsDecimal(x);
    case Signed =>
      if x < 0 {
        SpellsDecimal(-x);
        assert ("-" + Render(-x, 10, false))[1..] == Render(-x, 10, false);
      } else {
        SpellsDecimal(x);
      }
  }

  /** A number, its sign and its null character fit the twelve-byte buffer; the count leaves the sign out. */
  method FormatNumber(c: Conversion, x: int) returns (buf: array<char>, count: nat)
    requires Argument(c, x)
    ensures count == |Printed(c, x)| - (if x < 0 then 1 else 0)
    ensures fresh(buf) && buf.Length == NUM_BUF_SIZE
    ensures |Printed(c, x)| < NUM_BUF_SIZE && buf[..|Printed(c, x)|] == Printed(c, x) && buf[|Printed(c, x)|] == NUL
    ensures Spells(c, x, buf[..|Printed(c, x)|])
  {
    PrintedSpells(c, x);
    hide DigitsOf, Render, Low32, Spells;
    buf := new char[NUM_BUF_SIZE](i => NUL);
    match c
    case Hex(upper) =>
      RenderLength(x, 16, upper);
      count := Uint2str(buf, 0, x, 16, upper);
    case Unsigned =>
      RenderLength(x, 10, false);
      count := Uint2str(buf, 0, x, 10, false);
    case Signed =>
      if x < 0 {
        count := FormatNegative(buf, x);
      } else {
        RenderLength(x, 10, false);
        count := Uint2str(buf, 0, x, 10, false);
      }
  }

  /** A minus sign and the magnitude, negated in a machine word: the least `int` is its own negation
      and, unsigned, its own magnitude. */
  method FormatNegative(buf: array<char>, x: int) returns (count: nat)
    requires -INT_MAX - 1 <= x < 0 && buf.Length == NUM_BUF_SIZE
    modifies buf
    ensures count == |Render(-x, 10, false)|
    ensures var s := "-" + Render(-x, 10, false); |s| < NUM_BUF_SIZE && buf[..|s|] == s && buf[|s|] == NUL
  {
    hide DigitsOf, Render, Low32;
    Low32Is(-x);
    RenderLength(-x, 10, false);
    buf[0] := '-';
    count := Uint2str(buf, 1, Low32(-x), 10, false);
    assert buf[..1] == "-";
    assert buf[..1 + count] == buf[..1] + buf[1..1 + count];
  }

  /** A 32-bit number has at most ten characters. */
  lemma RenderLength(n: nat, base: nat, uppercase: bool)
    requires n < TWO32 && (base == 10 || base == 16)
    ensures |DigitsOf(n, base)| <= 10 && |Render(n, base, uppercase)| == |DigitsOf(n, base)|
  {
    EnoughDigits(n);
    DigitsProper(n, base);
  }

  /** The bound is tight: the longest conversion fills the buffer to the last byte. */
  lemma BufferFilled()
    ensures |Printed(Signed, -INT_MAX - 1)| + 1 == NUM_BUF_SIZE
  {
    EnoughDigits(INT_MAX + 1);
    RenderLength(INT_MAX + 1, 10, false);
  }
}

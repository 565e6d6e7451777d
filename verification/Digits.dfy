/** Positional notation: the digits of a number, how they read back, and how many there are. */
module Digits {

  // ---------------------------------------------------------------- multiplication and division

  lemma MulLeast(x: int, d: nat)
    requires x >= 1
    ensures x * d >= d
  {
    assert (x - 1) * d >= 0;
  }

  lemma MulMinus(x: int, y: int, d: int)
    ensures (x - y) * d == x * d - y * d
  {}

  lemma MulThree(x: int, y: int, z: int)
    ensures x * y * z == x * (y * z) && x * y * z == x * z * y
  {}

  lemma DivMod(n: nat, d: nat)
    requires d > 0
    ensures n == n / d * d + n % d && n % d < d
  {}

  lemma MulLess(s: nat, p: nat, b: nat)
    requires s < p
    ensures s * b + b <= p * b
  {
    MulMinus(p, s, b);
    MulLeast(p - s, b);
  }

  lemma DivShrinks(n: nat, b: nat)
    requires b >= 2 && n >= b
    ensures 0 < n / b < n && n % b >= 0
  {
    DivMod(n, b);
    DivAbove(n, b, 1);
    MulLess(1, b, n / b);
  }

  // ---------------------------------------------------------------- digits

  /** Unsigned division and remainder. */
  function Div(n: nat, d: nat): nat
    requires d != 0
  {
    n / d
  }

  function Rem(n: nat, d: nat): nat
    requires d != 0
  {
    n % d
  }

  function Pow(b: nat, k: nat): nat {
    if k == 0 then 1 else b * Pow(b, k - 1)
  }

  /** The digits of `n`, most significant first, without leading zeros. */
  function DigitsOf(n: nat, b: nat): (q: seq<nat>)
    requires b >= 2
    ensures |q| >= 1
    decreases n
  {
    if n < b then [n] else
      DivShrinks(n, b);
      DigitsOf(n / b, b) + [n % b]
  }

  /** Exactly `k` digits of `n`, most significant first. */
  function Fixed(n: nat, b: nat, k: nat): seq<nat>
    requires b >= 2
    decreases k
  {
    if k == 0 then [] else
      PowPositive(b, k - 1);
      [Div(n, Pow(b, k - 1))] + Fixed(Rem(n, Pow(b, k - 1)), b, k - 1)
  }

  /** The number a sequence of digits stands for. */
  function Value(q: seq<nat>, b: nat): nat {
    if q == [] then 0 else Value(q[..|q| - 1], b) * b + q[|q| - 1]
  }

  lemma PowPositive(b: nat, k: nat)
    requires b >= 2
    ensures Pow(b, k) >= 1
  {
    if k > 0 { PowPositive(b, k - 1); }
  }

  /** Quotient and remainder are determined by their defining equation. */
  lemma DivModUnique(n: nat, d: nat, q: nat, r: nat)
    requires d > 0 && n == q * d + r && r < d
    ensures n / d == q && n % d == r
  {
    var q', r' := n / d, n % d;
    DivMod(n, d);
    MulMinus(q, q', d);
    MulMinus(q', q, d);
    assert q * d - q' * d == r' - r;
    if q - q' >= 1 { MulLeast(q - q', d); }
    if q' - q >= 1 { MulLeast(q' - q, d); }
  }

  /** Digits from the front and from the back are the same digits. */
  lemma {:induction false} FixedLast(n: nat, b: nat, k: nat)
    requires b >= 2 && n < Pow(b, k + 1)
    ensures Fixed(n, b, k + 1) == Fixed(Div(n, b), b, k) + [Rem(n, b)]
    decreases k
  {
    if k == 0 {
      FixedOne(n, b);
      Small(n, b);
    } else {
      hide *;
      PowPositive(b, k - 1);
      PowPositive(b, k);
      var p, q := Pow(b, k), Pow(b, k - 1);
      FixedStep(n, b, k, p);
      FixedStep(Div(n, b), b, k - 1, q);
      SplitPow(n, b, k, p, q);
      FixedLast(Rem(n, p), b, k - 1);
    }
  }

  lemma Small(n: nat, b: nat)
    requires n < b
    ensures Rem(n, b) == n && Div(n, b) == 0
  {}

  lemma SplitPow(n: nat, b: nat, k: nat, p: nat, q: nat)
    requires b >= 2 && k >= 1 && p == Pow(b, k) && q == Pow(b, k - 1) && p >= 1 && q >= 1
    ensures Div(n, p) == Div(Div(n, b), q) && Div(Rem(n, p), b) == Rem(Div(n, b), q)
    ensures Rem(Rem(n, p), b) == Rem(n, b) && Rem(n, p) < Pow(b, k)
  {
    SplitDigit(n, b, q);
  }

  /** One step of the recursion, under the power `p`. */
  lemma FixedStep(n: nat, b: nat, k: nat, p: nat)
    requires b >= 2 && p == Pow(b, k) && p >= 1
    ensures Fixed(n, b, k + 1) == [Div(n, p)] + Fixed(Rem(n, p), b, k)
  {}

  lemma FixedOne(n: nat, b: nat)
    requires b >= 2
    ensures Pow(b, 1) == b && Fixed(n, b, 1) == [n] && Fixed(Div(n, b), b, 0) == []
  {
    assert Pow(b, 0) == 1 && n / 1 == n && n % 1 == 0;
    assert Fixed(0, b, 0) == [];
  }

  /** Dividing by `b` and then by `p` is dividing by their product, with matching remainders. */
  lemma SplitDigit(n: nat, b: nat, p: nat)
    requires b >= 2 && p >= 1
    ensures b * p >= 1
    ensures n / (b * p) == n / b / p && n % (b * p) / b == n / b % p && n % (b * p) % b == n % b
  {
    var m, r := n / b, n % b;
    var q, s := m / p, m % p;
    DivMod(n, b);
    DivMod(m, p);
    MulLeast(p, b);
    Recombine(m, q, p, s, b);
    MulLess(s, p, b);
    assert n == q * (b * p) + (s * b + r);
    DivModUnique(n, b * p, q, s * b + r);
    DivModUnique(s * b + r, b, s, r);
  }

  lemma Recombine(m: nat, q: nat, p: nat, s: nat, b: nat)
    requires m == q * p + s
    ensures m * b == q * (b * p) + s * b && b * p == p * b
  {
    MulThree(q, p, b);
    assert (q * p + s) * b == q * p * b + s * b;
  }

  /** Dividing by the base takes one power off the bound. */
  lemma DivBelow(n: nat, b: nat, p: nat)
    requires b >= 2 && n < b * p
    ensures n / b < p
  {
    DivMod(n, b);
    if n / b >= p {
      MulLess(p, n / b + 1, b);
      MulMinus(n / b + 1, 1, b);
    }
  }

  lemma DivAbove(n: nat, b: nat, p: nat)
    requires b >= 2 && n >= b * p
    ensures n / b >= p
  {
    DivMod(n, b);
    if n / b < p {
      MulLess(n / b, p, b);
    }
  }

  /** A number between two neighbouring powers has exactly so many digits, and they are these. */
  lemma {:induction false} FixedIsDigits(n: nat, b: nat, k: nat)
    requires b >= 2 && n < Pow(b, k + 1) && (k == 0 || n >= Pow(b, k))
    ensures Fixed(n, b, k + 1) == DigitsOf(n, b)
    decreases k
  {
    if k == 0 {
      FixedOne(n, b);
    } else {
      FixedLast(n, b, k);
      DivBelow(n, b, Pow(b, k));
      DivAbove(n, b, Pow(b, k - 1));
      PowPositive(b, k - 1);
      MulLeast(Pow(b, k - 1), b);
      FixedIsDigits(n / b, b, k - 1);
    }
  }

  lemma {:induction false} FixedLength(n: nat, b: nat, k: nat)
    requires b >= 2
    ensures |Fixed(n, b, k)| == k
    decreases k
  {
    if k > 0 {
      PowPositive(b, k - 1);
      FixedLength(n % Pow(b, k - 1), b, k - 1);
    }
  }

  /** Reading the digits gives the number back. */
  lemma {:induction false} ValueOfDigits(n: nat, b: nat)
    requires b >= 2
    ensures Value(DigitsOf(n, b), b) == n
    decreases n
  {
    if n < b {
      assert [n][..0] == [];
    } else {
      DivMod(n, b);
      ValueOfDigits(n / b, b);
      var q := DigitsOf(n, b);
      assert q[..|q| - 1] == DigitsOf(n / b, b);
    }
  }

  /** Digits are below the base, and the first is zero only for zero itself. */
  lemma {:induction false} DigitsProper(n: nat, b: nat)
    requires b >= 2
    ensures forall i :: 0 <= i < |DigitsOf(n, b)| ==> DigitsOf(n, b)[i] < b
    ensures DigitsOf(n, b)[0] == 0 <==> n == 0
    decreases n
  {
    if n >= b {
      DigitsProper(n / b, b);
      DivAbove(n, b, 1);
    }
  }

  /** A number below the `k`th power of the base has at most `k` digits. */
  lemma {:induction false} DigitsCount(n: nat, b: nat, k: nat)
    requires b >= 2 && k >= 1 && n < Pow(b, k)
    ensures |DigitsOf(n, b)| <= k
    decreases k
  {
    if n >= b {
      if k == 1 {
        FixedOne(n, b);
      } else {
        DivBelow(n, b, Pow(b, k - 1));
        DigitsCount(n / b, b, k - 1);
      }
    }
  }

  lemma DivLess(n: nat, b: nat)
    requires b >= 2
    ensures n / b <= n
  {
    DivMod(n, b);
    if n / b >= 1 { MulLess(1, b, n / b); }
  }

  /** The recursion of the digits, one step. */
  lemma DigitsStep(n: nat, b: nat)
    requires b >= 2
    ensures n < b ==> DigitsOf(n, b) == [n]
    ensures n >= b ==> Div(n, b) < n && DigitsOf(n, b) == DigitsOf(Div(n, b), b) + [Rem(n, b)]
    ensures Div(n, b) <= n && Value([], b) == 0
  {
    DivLess(n, b);
    if n >= b { DivShrinks(n, b); }
  }

  /** A proper prefix of the digits stands for at most the number without its last digit. */
  lemma {:induction false} PrefixValue(n: nat, b: nat, i: nat)
    requires b >= 2 && i < |DigitsOf(n, b)|
    ensures Value(DigitsOf(n, b)[..i], b) <= Div(n, b)
    decreases n
  {
    hide *;
    DigitsStep(n, b);
    var q := DigitsOf(n, b);
    if n < b {
      assert q[..i] == [];
    } else {
      var m := Div(n, b);
      var r := DigitsOf(m, b);
      assert q[..i] == r[..i];
      DigitsStep(m, b);
      if i < |r| {
        PrefixValue(m, b, i);
      } else {
        assert r[..i] == r;
        ValueOfDigits(m, b);
      }
    }
  }

  /** Ten decimal or eight hexadecimal digits are enough for 32 bits, and from the powers below on
      they are needed. */
  lemma EnoughDigits(n: nat)
    requires n < 0x1_0000_0000
    ensures |DigitsOf(n, 10)| <= 10 && |DigitsOf(n, 16)| <= 8
    ensures n >= 1000000000 ==> |DigitsOf(n, 10)| == 10
    ensures n >= 0x1000_0000 ==> |DigitsOf(n, 16)| == 8
  {
    Powers();
    DigitsCount(n, 10, 10);
    DigitsCount(n, 16, 8);
    if n >= 1000000000 {
      FixedIsDigits(n, 10, 9);
      FixedLength(n, 10, 10);
    }
    if n >= 0x1000_0000 {
      FixedIsDigits(n, 16, 7);
      FixedLength(n, 16, 8);
    }
  }

  lemma Powers()
    ensures Pow(10, 9) == 1000000000 && Pow(10, 10) == 10000000000 && Pow(16, 7) == 0x1000_0000 && Pow(16, 8) == 0x1_0000_0000
  {
    assert Pow(10, 3) == 1000;
    assert Pow(10, 6) == 1000000;
    assert Pow(10, 9) == 1000000000;
    assert Pow(16, 3) == 4096;
    assert Pow(16, 6) == 0x100_0000;
  }
}

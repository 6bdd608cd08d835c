/** Decimal strings: what `int(...)` and `list(map(int, ...))` read from the
    ASCII strings that the validators' patterns let through. */
module Digits {

  predicate IsDigit(c: char) {
    '0' <= c <= '9'
  }

  predicate AllDigits(s: string) {
    forall i :: 0 <= i < |s| ==> IsDigit(s[i])
  }

  type Decimal = s: string | AllDigits(s) witness ""

  function Value(c: char): (d: nat)
    requires IsDigit(c)
    ensures d <= 9
    ensures DigitChar(d) == c
  {
    (c - '0') as int
  }

  function DigitChar(d: nat): (c: char)
    requires d <= 9
    ensures IsDigit(c)
  {
    '0' + d as char
  }

  /** Python's `$` also matches before one trailing newline. */
  predicate MatchesLine(s: string, shape: string -> bool) {
    shape(s) || (s != "" && s[|s| - 1] == '\n' && shape(s[..|s| - 1]))
  }

  function Pow10(e: nat): (p: nat)
    ensures p > 0
  {
    if e == 0 then 1 else 10 * Pow10(e - 1)
  }

  function ToInt(s: Decimal): nat {
    if s == "" then 0 else ToInt(s[..|s| - 1]) * 10 + Value(s[|s| - 1])
  }

  lemma {:induction false} PowAdd(m: nat, n: nat)
    ensures Pow10(m + n) == Pow10(m) * Pow10(n)
  {
    if m > 0 {
      PowAdd(m - 1, n);
    }
  }

  lemma {:induction false} ToIntConcat(a: Decimal, b: Decimal)
    ensures ToInt(a + b) == ToInt(a) * Pow10(|b|) + ToInt(b)
  {
    if b == "" {
      assert a + b == a;
    } else {
      var b' := b[..|b| - 1];
      assert (a + b)[..|a + b| - 1] == a + b';
      ToIntConcat(a, b');
      assert Pow10(|b|) == 10 * Pow10(|b'|);
      Rescale(ToInt(a), Pow10(|b'|));
      assert ToInt(a + b) == ToInt(a + b') * 10 + Value(b[|b| - 1]);
    }
  }

  /** Changing one digit moves the number by that digit's place value. */
  lemma {:induction false} ToIntSet(s: Decimal, i: nat, c: char)
    requires i < |s| && IsDigit(c)
    ensures ToInt(s[i := c]) == ToInt(s) + (Value(c) - Value(s[i])) * Pow10(|s| - 1 - i)
  {
    var n := |s| - 1;
    var t: Decimal := s[i := c];
    if i == n {
      assert t[..n] == s[..n];
    } else {
      assert t[..n] == s[..n][i := c];
      ToIntSet(s[..n], i, c);
      assert Pow10(n - i) == 10 * Pow10(n - 1 - i);
      Rescale(Value(c) - Value(s[i]), Pow10(n - 1 - i));
    }
  }

  lemma Rescale(d: int, p: int)
    ensures d * p * 10 == d * (10 * p)
  {
  }
}

/** Weighted digit sums, as the mod-11 schemes use them. */
module WeightedSums {

  function WeightedSum(w: seq<int>, d: seq<int>): int
    requires |w| == |d|
  {
    if d == [] then 0 else WeightedSum(w[..|w| - 1], d[..|d| - 1]) + w[|w| - 1] * d[|d| - 1]
  }

  lemma {:induction false} WeightedSumSet(w: seq<int>, d: seq<int>, i: nat, x: int)
    requires |w| == |d| && i < |d|
    ensures WeightedSum(w, d[i := x]) == WeightedSum(w, d) + w[i] * (x - d[i])
  {
    var n := |d| - 1;
    if i == n {
      assert d[i := x][..n] == d[..n];
    } else {
      assert d[i := x][..n] == d[..n][i := x];
      WeightedSumSet(w[..n], d[..n], i, x);
    }
  }

  lemma ElevenDropped(q: int, r: int)
    ensures (11 * q + r) % 11 == r % 11
  {
  }

  /** 11 is prime, and digits and small weights are not multiples of it. */
  lemma NoMultipleOf11(w: int, x: int)
    requires w % 11 != 0 && -9 <= x <= 9 && x != 0
    ensures (w * x) % 11 != 0
  {
    Regroup(w / 11, w % 11, x);
    ElevenDropped((w / 11) * x, (w % 11) * x);
    SmallProduct(w % 11, x);
  }

  lemma Regroup(q: int, r: int, x: int)
    ensures (11 * q + r) * x == 11 * (q * x) + r * x
  {
  }

  lemma SmallProduct(r: int, x: int)
    requires 1 <= r <= 10 && -9 <= x <= 9 && x != 0
    ensures (r * x) % 11 != 0
  {
    if (r * x) % 11 == 0 {
      match r
      case 1 => CancelEleven(1, 1, 0, x);
      case 2 => CancelEleven(2, 6, 1, x);
      case 3 => CancelEleven(3, 4, 1, x);
      case 4 => CancelEleven(4, 3, 1, x);
      case 5 => CancelEleven(5, 9, 4, x);
      case 6 => CancelEleven(6, 2, 1, x);
      case 7 => CancelEleven(7, 8, 5, x);
      case 8 => CancelEleven(8, 7, 5, x);
      case 9 => CancelEleven(9, 5, 4, x);
      case _ => CancelEleven(10, 10, 9, x);
    }
  }

  lemma CancelEleven(r: int, inverse: int, m: int, x: int)
    requires r * inverse == 11 * m + 1 && (r * x) % 11 == 0
    ensures x % 11 == 0
  {
    InvertedEleven(r, inverse, m, x, r * x / 11);
    ElevenDropped(inverse * (r * x / 11) - m * x, 0);
  }

  lemma InvertedEleven(r: int, inverse: int, m: int, x: int, k: int)
    requires r * inverse == 11 * m + 1 && r * x == 11 * k
    ensures x == 11 * (inverse * k - m * x) + 0
  {
    calc {
      x;
      (11 * m + 1) * x - 11 * (m * x);
      r * inverse * x - 11 * (m * x);
      { assert r * inverse * x == inverse * (r * x); }
      inverse * (11 * k) - 11 * (m * x);
      11 * (inverse * k) - 11 * (m * x);
      11 * (inverse * k - m * x);
    }
  }
}

/** `bank_card_pan_validator` (financial/validators.py): 16 digits under the
    Luhn formula of ISO/IEC 7812-1, Annex B. */
module Luhn {
  import opened Digits

  datatype Verdict = Accepted | Invalid | ValueError

  predicate PanShape(s: string) {
    |s| == 16 && AllDigits(s)
  }

  /** What one digit contributes: at every even index the decimal digits of its double
      are added up, at every odd index the digit itself counts. */
  function Term(index: nat, digit: nat): nat
    requires digit <= 9
  {
    if index % 2 == 0 then 2 * digit / 10 + 2 * digit % 10 else digit
  }

  function LuhnSum(s: Decimal): nat {
    if s == "" then 0 else LuhnSum(s[..|s| - 1]) + Term(|s| - 1, Value(s[|s| - 1]))
  }

  predicate LuhnValid(s: Decimal) {
    LuhnSum(s) % 10 == 0
  }

  method BankCardPanValidator(value: string) returns (v: Verdict)
    ensures v == Accepted <==> |value| == 16 && AllDigits(value) && LuhnValid(value)
    ensures v == ValueError <==> |value| == 17 && AllDigits(value[..16]) && value[16] == '\n'
  {
    if !MatchesLine(value, PanShape) {
      return Invalid;
    }
    if !AllDigits(value) {
      return ValueError;
    }
    assert PanShape(value);
    var pan: Decimal := value;
    var sum := 0;
    for index := 0 to |pan|
      invariant sum == LuhnSum(pan[..index])
    {
      LuhnSumStep(pan, index);
      var s := (2 - index % 2) * Value(pan[index]);
      if s > 9 {
        s := s - 9;
      }
      sum := sum + s;
    }
    assert pan[..|pan|] == value;
    if sum % 10 != 0 {
      return Invalid;
    }
    return Accepted;
  }

  lemma LuhnSumStep(s: Decimal, n: nat)
    requires n < |s|
    ensures var d := (2 - n % 2) * Value(s[n]);
            LuhnSum(s[..n + 1]) == LuhnSum(s[..n]) + if d > 9 then d - 9 else d
  {
    assert s[..n + 1][..n] == s[..n];
    TermAsLoopStep(n, Value(s[n]));
  }

  /** At even places from the left a digit counts with the digit sum of its double, which leaves 9 as it
      is and else is the double modulo 9; at odd places it counts as it is. A text is valid when it all
      adds up to a multiple of ten. */
  lemma LuhnInWords(s: Decimal, n: nat)
    requires n < |s|
    ensures var d := Value(s[n]);
            LuhnSum(s[..n + 1]) == LuhnSum(s[..n]) + if n % 2 == 1 then d else if d == 9 then 9 else 2 * d % 9
    ensures LuhnSum(s[..0]) == 0 && (LuhnValid(s) <==> LuhnSum(s[..|s|]) % 10 == 0)
  {
    LuhnSumStep(s, n);
    DoubleDigit(Value(s[n]));
    TermByParity(n, Value(s[n]));
    assert s[..n + 1][..n] == s[..n] && s[..|s|] == s;
  }

  lemma DoubleDigit(d: nat)
    requires d <= 9
    ensures d + Excess(d) == if d == 9 then 9 else 2 * d % 9
  {
  }

  lemma TermAsLoopStep(n: nat, digit: nat)
    requires digit <= 9
    ensures Term(n, digit) == var d := (2 - n % 2) * digit; if d > 9 then d - 9 else d
  {
    if n % 2 == 0 {
      assert (2 - n % 2) * digit == 2 * digit;
    } else {
      assert (2 - n % 2) * digit == digit;
    }
  }

  lemma {:induction false} LuhnSumSet(s: Decimal, i: nat, c: char)
    requires i < |s| && IsDigit(c)
    ensures LuhnSum(s[i := c]) == LuhnSum(s) + Term(i, Value(c)) - Term(i, Value(s[i]))
  {
    var n := |s| - 1;
    if i == n {
      assert s[i := c][..n] == s[..n];
    } else {
      assert s[i := c][..n] == s[..n][i := c];
      LuhnSumSet(s[..n], i, c);
    }
  }

  /** How far an even-index term is from its digit; only 0 and 9 share a value. */
  function Excess(digit: nat): (e: int)
    requires digit <= 9
    ensures Term(0, digit) == digit + e
    ensures -4 <= e <= 4
  {
    if digit <= 4 then digit else digit - 9
  }

  lemma TermByParity(i: nat, digit: nat)
    requires digit <= 9
    ensures Term(i, digit) == if i % 2 == 0 then digit + Excess(digit) else digit
  {
  }

  /** Every change of one digit is caught. */
  lemma SubstitutionCaught(s: Decimal, i: nat, c: char)
    requires LuhnValid(s)
    requires i < |s| && IsDigit(c) && c != s[i]
    ensures !LuhnValid(s[i := c])
  {
    LuhnSumSet(s, i, c);
    TermsDiffer(i, Value(c), Value(s[i]));
    Shifted(LuhnSum(s), Term(i, Value(c)) - Term(i, Value(s[i])));
  }

  lemma TermsDiffer(i: nat, a: nat, b: nat)
    requires a <= 9 && b <= 9 && a != b
    ensures -9 <= Term(i, a) - Term(i, b) <= 9 && Term(i, a) != Term(i, b)
  {
    TermByParity(i, a);
    TermByParity(i, b);
  }

  lemma Shifted(sum: int, shift: int)
    requires sum % 10 == 0 && -9 <= shift <= 9
    ensures (sum + shift) % 10 == 0 <==> shift == 0
  {
  }

  /** Exchanging two different digits goes unnoticed exactly when the positions have the
      same parity or the digits are 0 and 9; for neighbours, exactly when they are 0 and 9. */
  lemma ExchangeMissed(s: Decimal, i: nat, j: nat)
    requires LuhnValid(s)
    requires i < j < |s| && s[i] != s[j]
    ensures LuhnValid(s[i := s[j]][j := s[i]]) <==>
              (j - i) % 2 == 0 || (s[i] == '0' && s[j] == '9') || (s[i] == '9' && s[j] == '0')
  {
    var t: Decimal := s[i := s[j]];
    LuhnSumSet(s, i, s[j]);
    LuhnSumSet(t, j, s[i]);
    var a, b := Value(s[i]), Value(s[j]);
    var shift := Term(i, b) - Term(i, a) + Term(j, a) - Term(j, b);
    assert LuhnSum(t[j := s[i]]) == LuhnSum(s) + shift;
    ParityGap(i, j, a, b);
    Shifted(LuhnSum(s), shift);
  }

  lemma ParityGap(i: nat, j: nat, a: nat, b: nat)
    requires a <= 9 && b <= 9 && a != b
    ensures var shift := Term(i, b) - Term(i, a) + Term(j, a) - Term(j, b);
            -9 <= shift <= 9 &&
            (shift == 0 <==> (j - i) % 2 == 0 || (a == 0 && b == 9) || (a == 9 && b == 0))
  {
    TermByParity(i, a);
    TermByParity(i, b);
    TermByParity(j, a);
    TermByParity(j, b);
    SameParity(i, j);
  }

  lemma SameParity(i: nat, j: nat)
    ensures (j - i) % 2 == 0 <==> i % 2 == j % 2
  {
  }

  /** The one digit that completes a 15-digit prefix. */
  function LuhnDigit(prefix: Decimal): (d: nat)
    requires |prefix| == 15
    ensures d <= 9
  {
    (10 - LuhnSum(prefix) % 10) % 10
  }

  lemma LastDigitUnique(prefix: Decimal, c: char)
    requires |prefix| == 15 && IsDigit(c)
    ensures LuhnValid(prefix + [c]) <==> c == DigitChar(LuhnDigit(prefix))
  {
    assert (prefix + [c])[..15] == prefix;
    Complement(LuhnSum(prefix), Value(c));
  }

  lemma Complement(sum: nat, d: nat)
    requires d <= 9
    ensures (sum + d) % 10 == 0 <==> d == (10 - sum % 10) % 10
  {
  }
}

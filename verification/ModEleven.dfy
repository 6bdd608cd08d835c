/** The two mod-11 schemes of accounts/validators.py: personal national codes and
    company national ids. */
module ModEleven {
  import opened Digits
  import opened WeightedSums

  datatype Verdict = Accepted | Invalid | ValueError

  /** `list(map(int, value))` on a string of digits. */
  function DigitsOf(s: Decimal): (d: seq<int>)
    ensures |d| == |s|
    ensures forall i :: 0 <= i < |d| ==> d[i] == Value(s[i])
  {
    seq(|s|, i requires 0 <= i < |s| => Value(s[i]))
  }

  lemma DigitsOfSet(s: Decimal, i: nat, c: char)
    requires i < |s| && IsDigit(c)
    ensures DigitsOf(s[i := c]) == DigitsOf(s)[i := Value(c)]
  {
  }

  lemma WeightedSumStep(w: seq<int>, d: seq<int>, n: nat)
    requires |w| == |d| && n < |d|
    ensures WeightedSum(w[..n + 1], d[..n + 1]) == WeightedSum(w[..n], d[..n]) + w[n] * d[n]
  {
    assert w[..n + 1][..n] == w[..n] && d[..n + 1][..n] == d[..n];
  }

  lemma RemaindersDiffer(sum: int, shift: int)
    requires shift % 11 != 0
    ensures (sum + shift) % 11 != sum % 11
  {
  }

  // ----- personal national code -----

  predicate NationalShape(s: string) {
    |s| == 10 && AllDigits(s)
  }

  /** Codes of eight or nine characters get their leading zeros back. */
  function Padded(value: string): string {
    if |value| == 8 then "00" + value else if |value| == 9 then "0" + value else value
  }

  const NATIONAL_WEIGHTS := [10, 9, 8, 7, 6, 5, 4, 3, 2]

  function NationalTotal(s: Decimal): int
    requires |s| == 10
  {
    WeightedSum(NATIONAL_WEIGHTS, DigitsOf(s)[..9])
  }

  function NationalRemainder(s: Decimal): (r: nat)
    requires |s| == 10
    ensures r < 11
  {
    NationalTotal(s) % 11
  }

  function NationalControl(r: nat): (c: nat)
    requires r < 11
    ensures c <= 9
    ensures (r + c) % 11 == 0 || r == c == 1
  {
    if r >= 2 then 11 - r else r
  }

  predicate NationalValid(s: Decimal)
    requires |s| == 10
  {
    Value(s[9]) == NationalControl(NationalRemainder(s))
  }

  method NationalCardCodeValidator(value: string) returns (v: Verdict)
    ensures |value| == 10 ==> (v == Accepted <==> AllDigits(value) && NationalValid(value))
    ensures |value| == 9 ==> (v == Accepted <==> AllDigits(value) && NationalValid("0" + value))
    ensures |value| == 8 ==> (v == Accepted <==> AllDigits(value) && NationalValid("00" + value))
    ensures |value| < 8 || |value| > 10 ==> v != Accepted
    ensures v == ValueError <==> |value| == 11 && AllDigits(value[..10]) && value[10] == '\n'
  {
    var code := value;
    if 8 <= |code| < 10 {
      code := seq(10 - |code|, _ => '0') + code;
      assert code == Padded(value);
    }
    PaddedShape(value);
    v := CodeVerdict(code);
  }

  /** Padding adds zeros only, and never makes eleven characters. */
  lemma PaddedShape(value: string)
    ensures NationalShape(Padded(value)) <==> 8 <= |value| <= 10 && AllDigits(value)
    ensures |Padded(value)| == 11 <==> |value| == 11
    ensures |value| in {10, 11} ==> Padded(value) == value
  {
    var zeros := |Padded(value)| - |value|;
    assert forall i :: 0 <= i < |value| ==> Padded(value)[zeros + i] == value[i];
  }

  /** The validator on a padded value. */
  method CodeVerdict(code: string) returns (v: Verdict)
    ensures v == Accepted <==> NationalShape(code) && NationalValid(code)
    ensures v == ValueError <==> |code| == 11 && code[10] == '\n' && NationalShape(code[..10])
  {
    if !MatchesLine(code, NationalShape) {
      return Invalid;
    }
    if !AllDigits(code) {
      return ValueError;
    }
    assert NationalShape(code);
    var control := NationalControlDigit(DigitsOf(code));
    if control != Value(code[9]) {
      return Invalid;
    }
    return Accepted;
  }

  /** The weighted loop and the control digit it leads to. */
  method NationalControlDigit(digits: seq<int>) returns (control: int)
    requires |digits| == 10
    ensures control == NationalControl(WeightedSum(NATIONAL_WEIGHTS, digits[..9]) % 11)
  {
    var sum := 0;
    for i := 0 to 9
      invariant sum == NationalSum(digits, i)
    {
      sum := sum + (10 - i) * digits[i];
    }
    NationalSumIsWeighted(digits, 9);
    assert NATIONAL_WEIGHTS[..9] == NATIONAL_WEIGHTS;
    control := sum % 11;
    if control >= 2 {
      control := 11 - control;
    }
  }

  function NationalSum(d: seq<int>, n: nat): int
    requires n <= 9 && n <= |d|
  {
    if n == 0 then 0 else NationalSum(d, n - 1) + (11 - n) * d[n - 1]
  }

  lemma {:induction false} NationalSumIsWeighted(d: seq<int>, n: nat)
    requires n <= 9 && n <= |d|
    ensures NationalSum(d, n) == WeightedSum(NATIONAL_WEIGHTS[..n], d[..n])
  {
    if n > 0 {
      NationalSumIsWeighted(d, n - 1);
      assert NATIONAL_WEIGHTS[..n][..n - 1] == NATIONAL_WEIGHTS[..n - 1] && d[..n][..n - 1] == d[..n - 1];
      assert NATIONAL_WEIGHTS[n - 1] == 11 - n;
    }
  }

  /** A change of the check digit is always caught, and each nine-digit prefix has one check digit. */
  lemma NationalCheckDigitUnique(s: Decimal, c: char)
    requires |s| == 10 && IsDigit(c)
    ensures NationalValid(s[9 := c]) <==> Value(c) == NationalControl(NationalRemainder(s))
  {
    assert DigitsOf(s[9 := c])[..9] == DigitsOf(s)[..9];
  }

  /** Two codes with the same check digit are both valid exactly when their remainders
      agree or are the pair 1 and 10, which share the check digit 1. */
  lemma NationalCollision(s: Decimal, t: Decimal)
    requires |s| == |t| == 10 && s[9] == t[9] && NationalValid(s)
    ensures NationalValid(t) <==>
              NationalRemainder(s) == NationalRemainder(t) ||
              {NationalRemainder(s), NationalRemainder(t)} == {1, 10}
  {
    var r, q := NationalRemainder(s), NationalRemainder(t);
    assert NationalControl(r) == NationalControl(q) <==> r == q || (r == 1 && q == 10) || (r == 10 && q == 1);
    PairIs(r, q, 1, 10);
  }

  lemma PairIs(r: int, q: int, a: int, b: int)
    requires a != b
    ensures {r, q} == {a, b} <==> (r == a && q == b) || (r == b && q == a)
  {
    if {r, q} == {a, b} {
      assert r in {a, b} && q in {a, b} && a in {r, q} && b in {r, q};
    }
  }

  lemma NationalShift(s: Decimal, i: nat, c: char)
    requires |s| == 10 && i < 9 && IsDigit(c)
    ensures NationalTotal(s[i := c]) == NationalTotal(s) + (10 - i) * (Value(c) - Value(s[i]))
  {
    var d := DigitsOf(s)[..9];
    DigitsOfSet(s, i, c);
    assert DigitsOf(s[i := c])[..9] == d[i := Value(c)];
    WeightedSumSet(NATIONAL_WEIGHTS, d, i, Value(c));
    assert NATIONAL_WEIGHTS[i] == 10 - i;
  }

  lemma NationalSwap(s: Decimal, i: nat, j: nat)
    requires |s| == 10 && i < j < 9
    ensures AllDigits(s[i := s[j]][j := s[i]])
    ensures NationalTotal(s[i := s[j]][j := s[i]]) == NationalTotal(s) + (j - i) * (Value(s[j]) - Value(s[i]))
  {
    NationalShift(s, i, s[j]);
    NationalShift(s[i := s[j]], j, s[i]);
    SwapGaps(10 - i, 10 - j, Value(s[i]), Value(s[j]));
  }

  lemma SwapGaps(v: int, w: int, a: int, b: int)
    ensures v * (b - a) + w * (a - b) == (v - w) * (b - a)
  {
  }

  /** A weight that is no multiple of 11 makes every digit gap show. */
  lemma GapShows(total: int, weight: int, gap: int)
    requires weight % 11 != 0 && -9 <= gap <= 9 && gap != 0
    ensures (total + weight * gap) % 11 != total % 11
  {
    NoMultipleOf11(weight, gap);
    RemaindersDiffer(total, weight * gap);
  }

  /** Changing one of the first nine digits always moves the remainder, so it is missed
      exactly when the two remainders are 1 and 10. */
  lemma NationalSubstitution(s: Decimal, i: nat, c: char)
    requires |s| == 10 && NationalValid(s)
    requires i < 9 && IsDigit(c) && c != s[i]
    ensures NationalRemainder(s) != NationalRemainder(s[i := c])
    ensures NationalValid(s[i := c]) <==> {NationalRemainder(s), NationalRemainder(s[i := c])} == {1, 10}
  {
    NationalShift(s, i, c);
    GapShows(NationalTotal(s), 10 - i, Value(c) - Value(s[i]));
    NationalCollision(s, s[i := c]);
  }

  /** The same for exchanging any two different digits among the first nine. */
  lemma NationalExchange(s: Decimal, i: nat, j: nat)
    requires |s| == 10 && NationalValid(s)
    requires i < j < 9 && s[i] != s[j]
    ensures var t := s[i := s[j]][j := s[i]];
            AllDigits(t) && NationalRemainder(s) != NationalRemainder(t) &&
            (NationalValid(t) <==> {NationalRemainder(s), NationalRemainder(t)} == {1, 10})
  {
    NationalSwap(s, i, j);
    GapShows(NationalTotal(s), j - i, Value(s[j]) - Value(s[i]));
    NationalCollision(s, s[i := s[j]][j := s[i]]);
  }

  /** When the exchange of digit `d` of the given weight with the check digit `c` goes unnoticed. */
  predicate NationalCheckMissed(r: nat, weight: int, d: nat, c: nat) {
    if r == 1 then (weight * (1 - d) + d + 1) % 11 == 0
    else d == 1 && (weight * (c - 1) - c - 1) % 11 == 0
  }

  /** Exchanging one of the first nine digits with the check digit is missed exactly when the remainder
      is 1 and the weight meets one congruence, or the digit is a 1 and the weight meets another. */
  lemma NationalCheckExchange(s: Decimal, i: nat)
    requires |s| == 10 && NationalValid(s) && i < 9 && s[i] != s[9]
    ensures var t := s[i := s[9]][9 := s[i]];
            AllDigits(t) && (NationalValid(t) <==> NationalCheckMissed(NationalRemainder(s), 10 - i, Value(s[i]), Value(s[9])))
  {
    var u: Decimal := s[i := s[9]];
    NationalShift(s, i, s[9]);
    NationalCheckDigitUnique(u, s[i]);
    CheckArithmetic(NationalTotal(s), 10 - i, Value(s[i]), Value(s[9]));
  }

  lemma CheckArithmetic(total: int, weight: int, d: nat, c: nat)
    requires 2 <= weight <= 10 && d <= 9 && c <= 9 && c != d && c == NationalControl(total % 11)
    ensures d == NationalControl((total + weight * (c - d)) % 11) <==> NationalCheckMissed(total % 11, weight, d, c)
  {
    if total % 11 == 1 {
      assert weight * (c - d) == weight * (1 - d);
      CheckRemainderOne(total, weight * (1 - d), d);
    } else {
      NoMultipleOf11(weight - 1, c - d);
      OneLess(weight, c - d);
      CheckOtherwise(total, weight * (c - d), d, c);
    }
  }

  lemma OneLess(weight: int, gap: int)
    ensures (weight - 1) * gap == weight * gap - gap
  {
  }

  lemma CheckRemainderOne(total: int, shift: int, d: nat)
    requires total % 11 == 1 && d <= 9 && d != 1
    ensures d == NationalControl((total + shift) % 11) <==> (shift + d + 1) % 11 == 0
  {
    ControlFits((total + shift) % 11, d);
    Congruent(total + shift + d, shift + d + 1, total / 11);
  }

  lemma CheckOtherwise(total: int, shift: int, d: nat, c: nat)
    requires total % 11 != 1 && d <= 9 && c <= 9 && c == NationalControl(total % 11) && (shift - (c - d)) % 11 != 0
    ensures d == NationalControl((total + shift) % 11) <==> d == 1 && (shift - c - 1) % 11 == 0
  {
    assert (total + c) % 11 == 0;
    ControlFits((total + shift) % 11, d);
    Congruent(total + shift + d, shift - (c - d), (total + c) / 11);
    Congruent(total + shift - 1, shift - c - 1, (total + c) / 11);
  }

  lemma Congruent(x: int, y: int, k: int)
    requires x == 11 * k + y
    ensures x % 11 == y % 11
  {
  }

  /** A digit is the control digit of a remainder when they add up to a multiple of 11, or both are 1. */
  lemma ControlFits(r: nat, d: nat)
    requires r < 11 && d <= 9
    ensures d == NationalControl(r) <==> (r + d) % 11 == 0 || r == d == 1
  {
  }

  /** The exceptional pair does occur. */
  lemma NationalMissWitness()
    ensures NationalValid("3740681241") && NationalRemainder("3740681241") == 10
    ensures NationalValid("1740681241") && NationalRemainder("1740681241") == 1
  {
    TotalOf("3740681241", 3);
    TotalOf("1740681241", 1);
  }

  lemma TotalOf(s: Decimal, a: nat)
    requires |s| == 10 && Value(s[0]) == a && s[1..] == "740681241"
    ensures NationalTotal(s) == 10 * a + 189 && Value(s[9]) == 1
  {
    assert s[9] == s[1..][8];
    forall k | 1 <= k < 9 ensures DigitsOf(s)[k] == [a, 7, 4, 0, 6, 8, 1, 2, 4][k] {
      assert s[k] == s[1..][k - 1];
    }
    assert DigitsOf(s)[..9] == [a, 7, 4, 0, 6, 8, 1, 2, 4];
    Spelled(a);
  }

  lemma Spelled(a: int)
    ensures WeightedSum(NATIONAL_WEIGHTS, [a, 7, 4, 0, 6, 8, 1, 2, 4]) == 10 * a + 189
  {
    var w, d := NATIONAL_WEIGHTS, [a, 7, 4, 0, 6, 8, 1, 2, 4];
    for n := 0 to 9
      invariant WeightedSum(w[..n], d[..n]) == [0, 10 * a, 10 * a + 63, 10 * a + 95, 10 * a + 95, 10 * a + 131,
                                                10 * a + 171, 10 * a + 175, 10 * a + 181, 10 * a + 189][n]
    {
      WeightedSumStep(w, d, n);
    }
    assert w[..9] == w && d[..9] == d;
  }

  // ----- company national id -----

  predicate CompanyShape(s: string) {
    |s| == 11 && AllDigits(s)
  }

  const COEFFICIENTS := [29, 27, 23, 19, 17]

  /** The weights of the ten leading digits once the tenth digit, which enters every
      term through the constant, is collected: 17 for its own term and 230 for the rest. */
  const COMPANY_WEIGHTS := [29, 27, 23, 19, 17, 29, 27, 23, 19, 247]

  function CompanyTotal(s: Decimal): int
    requires |s| == 11
  {
    WeightedSum(COMPANY_WEIGHTS, DigitsOf(s)[..10]) + 460
  }

  function CompanyRemainder(s: Decimal): (r: nat)
    requires |s| == 11
    ensures r < 11
  {
    CompanyTotal(s) % 11
  }

  predicate CompanyValid(s: Decimal)
    requires |s| == 11
  {
    Value(s[10]) == CompanyRemainder(s) % 10
  }

  method CompanyNationalIdValidator(value: string) returns (v: Verdict)
    ensures v == Accepted <==> |value| == 11 && AllDigits(value) && CompanyValid(value)
    ensures v == ValueError <==> |value| == 12 && AllDigits(value[..11]) && value[11] == '\n'
  {
    if !MatchesLine(value, CompanyShape) {
      return Invalid;
    }
    if !AllDigits(value) {
      return ValueError;
    }
    assert CompanyShape(value);
    var digits := DigitsOf(value);
    var sum := 0;
    var base := digits[9] + 2;
    for i := 0 to 10
      invariant sum == RunningSum(digits[..10], base, i)
    {
      sum := sum + (base + digits[i]) * COEFFICIENTS[i % 5];
    }
    CollectTenthDigit(digits[..10]);
    var control := (sum % 11) % 10;
    if control != digits[10] {
      return Invalid;
    }
    return Accepted;
  }

  function RunningSum(d: seq<int>, base: int, n: nat): int
    requires n <= |d|
  {
    if n == 0 then 0 else RunningSum(d, base, n - 1) + (base + d[n - 1]) * COEFFICIENTS[(n - 1) % 5]
  }

  function CoefficientSum(n: nat): int {
    if n == 0 then 0 else CoefficientSum(n - 1) + COEFFICIENTS[(n - 1) % 5]
  }

  lemma {:induction false} SplitConstant(d: seq<int>, base: int, n: nat)
    requires n <= 9 && |d| == 10
    ensures RunningSum(d, base, n) == WeightedSum(COMPANY_WEIGHTS[..n], d[..n]) + base * CoefficientSum(n)
  {
    if n > 0 {
      SplitConstant(d, base, n - 1);
      WeightedSumStep(COMPANY_WEIGHTS, d, n - 1);
      TermsUnfold(d, base, n - 1);
      SplitTerm(RunningSum(d, base, n - 1), WeightedSum(COMPANY_WEIGHTS[..n - 1], d[..n - 1]), CoefficientSum(n - 1),
                base, d[n - 1], COMPANY_WEIGHTS[n - 1]);
    }
  }

  lemma TermsUnfold(d: seq<int>, base: int, k: nat)
    requires k < 9 && |d| == 10
    ensures RunningSum(d, base, k + 1) == RunningSum(d, base, k) + (base + d[k]) * COMPANY_WEIGHTS[k]
    ensures CoefficientSum(k + 1) == CoefficientSum(k) + COMPANY_WEIGHTS[k]
  {
    assert COMPANY_WEIGHTS[k] == COEFFICIENTS[k % 5];
  }

  lemma SplitTerm(running: int, weighted: int, sum: int, base: int, x: int, c: int)
    requires running == weighted + base * sum
    ensures running + (base + x) * c == weighted + c * x + base * (sum + c)
  {
    assert (base + x) * c == base * c + c * x;
    assert base * (sum + c) == base * sum + base * c;
  }

  /** The tenth digit enters every term: it weighs 17 in its own and 230 through the constant. */
  lemma CollectTenthDigit(d: seq<int>)
    requires |d| == 10
    ensures RunningSum(d, d[9] + 2, 10) == WeightedSum(COMPANY_WEIGHTS, d) + 460
  {
    SplitConstant(d, d[9] + 2, 9);
    NineCoefficients();
    WeightedSumStep(COMPANY_WEIGHTS, d, 9);
    assert COMPANY_WEIGHTS[..10] == COMPANY_WEIGHTS && d[..10] == d;
  }

  lemma NineCoefficients()
    ensures CoefficientSum(9) == 213
  {
    assert CoefficientSum(3) == 79 && CoefficientSum(6) == 144;
  }

  lemma CompanyCheckDigitUnique(s: Decimal, c: char)
    requires |s| == 11 && IsDigit(c)
    ensures CompanyValid(s[10 := c]) <==> Value(c) == CompanyRemainder(s) % 10
  {
    assert DigitsOf(s[10 := c])[..10] == DigitsOf(s)[..10];
  }

  lemma CompanyShift(s: Decimal, i: nat, c: char)
    requires |s| == 11 && i < 10 && IsDigit(c)
    ensures CompanyTotal(s[i := c]) == CompanyTotal(s) + COMPANY_WEIGHTS[i] * (Value(c) - Value(s[i]))
  {
    var d := DigitsOf(s)[..10];
    DigitsOfSet(s, i, c);
    assert DigitsOf(s[i := c])[..10] == d[i := Value(c)];
    WeightedSumSet(COMPANY_WEIGHTS, d, i, Value(c));
  }

  lemma CompanySwap(s: Decimal, i: nat, j: nat)
    requires |s| == 11 && i < j < 10
    ensures AllDigits(s[i := s[j]][j := s[i]])
    ensures CompanyTotal(s[i := s[j]][j := s[i]])
         == CompanyTotal(s) + (COMPANY_WEIGHTS[i] - COMPANY_WEIGHTS[j]) * (Value(s[j]) - Value(s[i]))
  {
    CompanyShift(s, i, s[j]);
    CompanyShift(s[i := s[j]], j, s[i]);
    SwapGaps(COMPANY_WEIGHTS[i], COMPANY_WEIGHTS[j], Value(s[i]), Value(s[j]));
  }

  /** Two ids with the same check digit are both valid exactly when their remainders agree or are the
      pair 0 and 10, which share the check digit 0. */
  lemma CompanyCollision(s: Decimal, t: Decimal)
    requires |s| == |t| == 11 && s[10] == t[10] && CompanyValid(s)
    ensures CompanyValid(t) <==>
              CompanyRemainder(s) == CompanyRemainder(t) || {CompanyRemainder(s), CompanyRemainder(t)} == {0, 10}
  {
    PairIs(CompanyRemainder(s), CompanyRemainder(t), 0, 10);
  }

  lemma CompanyWeightsShow(i: nat)
    requires i < 10
    ensures COMPANY_WEIGHTS[i] % 11 == [7, 5, 1, 8, 6, 7, 5, 1, 8, 5][i] != 0
  {
  }

  /** Changing one of the first ten digits, the tenth included, always moves the remainder,
      so it is missed exactly when the two remainders are 0 and 10. */
  lemma CompanySubstitution(s: Decimal, i: nat, c: char)
    requires |s| == 11 && CompanyValid(s)
    requires i < 10 && IsDigit(c) && c != s[i]
    ensures CompanyRemainder(s) != CompanyRemainder(s[i := c])
    ensures CompanyValid(s[i := c]) <==> {CompanyRemainder(s), CompanyRemainder(s[i := c])} == {0, 10}
  {
    CompanyShift(s, i, c);
    CompanyWeightsShow(i);
    GapShows(CompanyTotal(s), COMPANY_WEIGHTS[i], Value(c) - Value(s[i]));
    CompanyCollision(s, s[i := c]);
  }

  /** Two positions whose weights agree modulo 11: five apart among the first nine, or the tenth with
      the second or the seventh. */
  predicate SameWeight(i: nat, j: nat) {
    (j == i + 5 && j < 9) || (j == 9 && i in {1, 6})
  }

  lemma WeightsAgree(i: nat, j: nat)
    requires i < j < 10
    ensures (COMPANY_WEIGHTS[i] - COMPANY_WEIGHTS[j]) % 11 == 0 <==> SameWeight(i, j)
  {
    CompanyWeightsShow(i);
    CompanyWeightsShow(j);
    SameResidue(COMPANY_WEIGHTS[i], COMPANY_WEIGHTS[j]);
  }

  lemma SameResidue(v: int, w: int)
    ensures (v - w) % 11 == 0 <==> v % 11 == w % 11
  {
  }

  /** Exchanging two different digits among the first ten is missed exactly when their weights agree
      modulo 11, or the two remainders are 0 and 10. */
  lemma CompanyExchange(s: Decimal, i: nat, j: nat)
    requires |s| == 11 && CompanyValid(s)
    requires i < j < 10 && s[i] != s[j]
    ensures var t := s[i := s[j]][j := s[i]];
            AllDigits(t) &&
            (NoShift(s, t) <==> SameWeight(i, j)) &&
            (CompanyValid(t) <==> SameWeight(i, j) || {CompanyRemainder(s), CompanyRemainder(t)} == {0, 10})
  {
    var weight, gap := COMPANY_WEIGHTS[i] - COMPANY_WEIGHTS[j], Value(s[j]) - Value(s[i]);
    CompanySwap(s, i, j);
    WeightsAgree(i, j);
    if SameWeight(i, j) {
      MultipleOf11(weight, gap);
      Congruent(CompanyTotal(s) + weight * gap, CompanyTotal(s), weight * gap / 11);
    } else {
      GapShows(CompanyTotal(s), weight, gap);
    }
    CompanyCollision(s, s[i := s[j]][j := s[i]]);
  }

  predicate NoShift(s: Decimal, t: Decimal)
    requires |s| == |t| == 11
  {
    CompanyRemainder(s) == CompanyRemainder(t)
  }

  lemma MultipleOf11(weight: int, gap: int)
    requires weight % 11 == 0
    ensures weight * gap == 11 * (weight * gap / 11)
  {
    assert weight * gap == 11 * (weight / 11 * gap);
  }

  /** Exchanging one of the first ten digits with the check digit is missed exactly when one of the two
      is 0, from remainder 10 if it is the check digit, and the other one times its weight plus itself
      leaves 10. */
  lemma CompanyCheckExchange(s: Decimal, i: nat)
    requires |s| == 11 && CompanyValid(s) && i < 10 && s[i] != s[10]
    ensures var t := s[i := s[10]][10 := s[i]]; var d, c := Value(s[i]), Value(s[10]);
            AllDigits(t) &&
            (CompanyValid(t) <==> (d == 0 && (COMPANY_WEIGHTS[i] * c + c) % 11 == 10) ||
                                  (CompanyRemainder(s) == 10 && (COMPANY_WEIGHTS[i] * d + d) % 11 == 10))
  {
    var u: Decimal := s[i := s[10]];
    CompanyShift(s, i, s[10]);
    CompanyCheckDigitUnique(u, s[i]);
    CompanyWeightsShow(i);
    CompanyCheckArithmetic(CompanyTotal(s), COMPANY_WEIGHTS[i], Value(s[i]), Value(s[10]));
  }

  lemma CompanyCheckArithmetic(total: int, weight: int, d: nat, c: nat)
    requires d <= 9 && c <= 9 && c != d && c == total % 11 % 10 && (weight + 1) % 11 != 0
    ensures d == (total + weight * (c - d)) % 11 % 10 <==>
              (d == 0 && (weight * c + c) % 11 == 10) || (total % 11 == 10 && (weight * d + d) % 11 == 10)
  {
    NoMultipleOf11(weight + 1, c - d);
    assert (weight + 1) * (c - d) == weight * (c - d) + (c - d);
    assert weight * (c - d) == weight * c - weight * d;
    if total % 11 == 10 {
      assert weight * c == 0;
      CompanyFromTen(total, weight * d, d);
    } else {
      CompanyFromOther(total, weight * (c - d), d, c);
      assert d == 0 ==> weight * d == 0;
    }
  }

  lemma CompanyFromTen(total: int, product: int, d: nat)
    requires total % 11 == 10 && 1 <= d <= 9
    ensures d == (total - product) % 11 % 10 <==> (product + d) % 11 == 10
  {
    Congruent(total - product, 10 - product, total / 11);
    TenLess(product, product / 11, d);
  }

  lemma TenLess(product: int, q: int, d: nat)
    requires 11 * q <= product < 11 * q + 11 && 1 <= d <= 9
    ensures d == (10 - product) % 11 % 10 <==> (product + d) % 11 == 10
  {
    Congruent(10 - product, 10 - (product - 11 * q), -q);
    Congruent(product + d, product - 11 * q + d, q);
  }

  lemma CompanyFromOther(total: int, shift: int, d: nat, c: nat)
    requires d <= 9 && c <= 9 && c != d && c == total % 11 && (shift + (c - d)) % 11 != 0
    ensures d == (total + shift) % 11 % 10 <==> d == 0 && (shift + c) % 11 == 10
  {
    Congruent(total + shift, c + shift, total / 11);
  }

  lemma CompanyMissWitness()
    ensures CompanyValid("37661123230") && CompanyRemainder("37661123230") == 0
    ensures CompanyValid("67661123230") && CompanyRemainder("67661123230") == 10
  {
    CompanyTotalOf("37661123230", 3);
    CompanyTotalOf("67661123230", 6);
  }

  lemma CompanyTotalOf(s: Decimal, a: nat)
    requires |s| == 11 && Value(s[0]) == a && s[1..] == "7661123230"
    ensures CompanyTotal(s) == 29 * a + 1849 && Value(s[10]) == 0
  {
    assert s[10] == s[1..][9];
    forall k | 1 <= k < 10 ensures DigitsOf(s)[k] == [a, 7, 6, 6, 1, 1, 2, 3, 2, 3][k] {
      assert s[k] == s[1..][k - 1];
    }
    assert DigitsOf(s)[..10] == [a, 7, 6, 6, 1, 1, 2, 3, 2, 3];
    CompanySpelled(a);
  }

  lemma CompanySpelled(a: int)
    ensures WeightedSum(COMPANY_WEIGHTS, [a, 7, 6, 6, 1, 1, 2, 3, 2, 3]) == 29 * a + 1389
  {
    var w, d := COMPANY_WEIGHTS, [a, 7, 6, 6, 1, 1, 2, 3, 2, 3];
    for n := 0 to 10
      invariant WeightedSum(w[..n], d[..n]) == [0, 29 * a, 29 * a + 189, 29 * a + 327, 29 * a + 441, 29 * a + 458,
                                                29 * a + 487, 29 * a + 541, 29 * a + 610, 29 * a + 648,
                                                29 * a + 1389][n]
    {
      WeightedSumStep(w, d, n);
    }
    assert w[..10] == w && d[..10] == d;
  }
}

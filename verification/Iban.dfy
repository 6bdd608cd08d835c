/** `iban_validator` (financial/validators.py): an Iranian IBAN is "IR", two
    check digits and a 22-digit body, under ISO/IEC 7064 MOD 97-10. */
module Iban {
  import opened Digits

  datatype Verdict = Accepted | Invalid | MergedBank | ValueError

  const MERGED_BANKS := ["0630", "0520", "0650", "0790", "0730"]

  predicate IbanShape(s: string) {
    |s| == 26 && s[0] == 'I' && s[1] == 'R' && AllDigits(s[2..])
  }

  function Replace(s: string, c: char, repl: string): string {
    if s == "" then ""
    else (if s[0] == c then repl else [s[0]]) + Replace(s[1..], c, repl)
  }

  function IbanValidator(iban: string): Verdict {
    if !MatchesLine(iban, IbanShape) then Invalid
    else
      var value := Replace(Replace(iban[4..] + iban[..4], 'I', "18"), 'R', "27");
      if !AllDigits(value) then ValueError
      else if ToInt(value) % 97 != 1 then Invalid
      else if iban[4..8] in MERGED_BANKS then MergedBank
      else Accepted
  }

  // ----- what the replacements compute -----

  lemma {:induction false} ReplaceConcat(s: string, t: string, c: char, repl: string)
    ensures Replace(s + t, c, repl) == Replace(s, c, repl) + Replace(t, c, repl)
  {
    if s == "" {
      assert s + t == t;
    } else {
      assert (s + t)[1..] == s[1..] + t;
      ReplaceConcat(s[1..], t, c, repl);
    }
  }

  lemma {:induction false} ReplaceAbsent(s: string, c: char, repl: string)
    requires c !in s
    ensures Replace(s, c, repl) == s
  {
    if s != "" {
      ReplaceAbsent(s[1..], c, repl);
    }
  }

  function Body(iban: string): Decimal
    requires IbanShape(iban)
  {
    assert AllDigits(iban[4..]) by { assert forall i :: 0 <= i < 22 ==> iban[4..][i] == iban[2..][i + 2]; }
    iban[4..]
  }

  function Check(iban: string): Decimal
    requires IbanShape(iban)
  {
    assert AllDigits(iban[2..4]) by { assert forall i :: 0 <= i < 2 ==> iban[2..4][i] == iban[2..][i]; }
    iban[2..4]
  }

  /** The number that is reduced modulo 97: body, then "IR" as 18 and 27, then the check digits. */
  function Rearranged(iban: string): (r: Decimal)
    requires IbanShape(iban)
    ensures |r| == 28
  {
    Body(iban) + "1827" + Check(iban)
  }

  predicate ChecksumValid(iban: string)
    requires IbanShape(iban)
  {
    ToInt(Rearranged(iban)) % 97 == 1
  }

  /** Replacing the one occurrence of a character. */
  lemma ReplaceOnce(before: string, after: string, c: char, repl: string)
    requires c !in before && c !in after
    ensures Replace(before + ([c] + after), c, repl) == before + (repl + after)
  {
    ReplaceConcat(before, [c] + after, c, repl);
    ReplaceAbsent(before, c, repl);
    ReplaceFirst(after, c, repl);
    ReplaceAbsent(after, c, repl);
  }

  lemma ReplaceFirst(after: string, c: char, repl: string)
    ensures Replace([c] + after, c, repl) == repl + Replace(after, c, repl)
  {
    assert ([c] + after)[1..] == after;
  }

  lemma ReplaceBoth(head: string, check: string)
    requires 'I' !in head && 'I' !in check && 'R' !in head && 'R' !in check
    ensures Replace(Replace(head + ("I" + ("R" + check)), 'I', "18"), 'R', "27") == (head + "18") + ("27" + check)
  {
    ReplaceOnce(head, "R" + check, 'I', "18");
    assert head + ("18" + ("R" + check)) == (head + "18") + ("R" + check);
    ReplaceOnce(head + "18", check, 'R', "27");
  }

  lemma Joined(head: string, check: string)
    ensures (head + "18") + ("27" + check) == head + "1827" + check
  {
  }

  /** The shape and the number behind the checksum: the digits after the first four characters, then
      1827 for the letters, then the two check digits. */
  lemma IbanInWords(iban: string)
    ensures IbanShape(iban) <==> |iban| == 26 && iban[..2] == "IR" && forall i :: 2 <= i < 26 ==> '0' <= iban[i] <= '9'
    ensures IbanShape(iban) ==>
              (ChecksumValid(iban) <==> (ToInt(iban[4..]) * 1_000_000 + 182_700 + ToInt(iban[2..4])) % 97 == 1)
  {
    if IbanShape(iban) {
      var body, check := Body(iban), Check(iban);
      ToIntConcat(body + "1827", check);
      ToIntConcat(body, "1827");
      FourDigits();
      assert Pow10(4) == 10_000 && Pow10(2) == 100;
    }
    assert |iban| == 26 && iban[..2] == "IR" ==> iban[0] == iban[..2][0] && iban[1] == iban[..2][1];
    assert |iban| == 26 ==> forall i :: 2 <= i < 26 ==> iban[i] == iban[2..][i - 2];
  }

  lemma FourDigits()
    ensures AllDigits("1827") && ToInt("1827") == 1827
  {
    assert "1827"[..3] == "182" && "182"[..2] == "18" && "18"[..1] == "1" && "1"[..0] == "";
    assert ToInt("1") == 1 && ToInt("18") == 18 && ToInt("182") == 182;
  }

  lemma Rearrangement(tail: string, iban: string)
    requires IbanShape(iban) && (tail == "" || tail == "\n")
    ensures Replace(Replace(Body(iban) + tail + iban[..4], 'I', "18"), 'R', "27")
         == Body(iban) + tail + "1827" + Check(iban)
  {
    var head, check := Body(iban) + tail, Check(iban);
    assert head + iban[..4] == head + ("I" + ("R" + check));
    ReplaceBoth(head, check);
    Joined(head, check);
  }

  /** The verdict on every string: only a well-formed line is looked at, a trailing
      newline makes `int` raise, and otherwise the checksum decides before the bank does. */
  lemma VerdictOfIban(iban: string)
    ensures IbanValidator(iban) == Accepted <==>
              IbanShape(iban) && ChecksumValid(iban) && iban[4..8] !in ["0520", "0630", "0650", "0730", "0790"]
    ensures IbanValidator(iban) == MergedBank <==>
              IbanShape(iban) && ChecksumValid(iban) && iban[4..8] in ["0520", "0630", "0650", "0730", "0790"]
    ensures IbanValidator(iban) == ValueError <==>
              |iban| == 27 && iban[26] == '\n' && IbanShape(iban[..26])
  {
    if IbanShape(iban) {
      Rearrangement("", iban);
      assert Body(iban) + "" + iban[..4] == iban[4..] + iban[..4];
      assert Body(iban) + "" + "1827" + Check(iban) == Rearranged(iban);
    } else if MatchesLine(iban, IbanShape) {
      var core := iban[..26];
      Rearrangement("\n", core);
      assert iban[4..] + iban[..4] == Body(core) + "\n" + core[..4];
      assert (Body(core) + "\n" + "1827" + Check(core))[22] == '\n';
    }
  }

  // ----- arithmetic modulo 97 -----

  lemma MultipleDropped(q: int, r: int)
    ensures (97 * q + r) % 97 == r % 97
  {
  }

  lemma TenTimes(x: int)
    requires x % 97 != 0
    ensures (10 * x) % 97 != 0
  {
    if (10 * x) % 97 == 0 {
      var k := 10 * x / 97;
      assert x == 97 * (68 * k - 7 * x) + 0;
      MultipleDropped(68 * k - 7 * x, 0);
    }
  }

  lemma {:induction false} DigitGapNotDivisible(gap: int, e: nat)
    requires gap % 97 != 0
    ensures (gap * Pow10(e)) % 97 != 0
  {
    if e > 0 {
      DigitGapNotDivisible(gap, e - 1);
      TenTimes(gap * Pow10(e - 1));
      Rescale(gap, Pow10(e - 1));
    }
  }

  lemma Cancel(gap: int, inverse: int, m: int, y: int)
    requires gap * inverse == 97 * m + 1
    requires (gap * y) % 97 == 0
    ensures y % 97 == 0
  {
    var k := gap * y / 97;
    Inverted(gap, inverse, m, y, k);
    MultipleDropped(inverse * k - m * y, 0);
  }

  lemma Inverted(gap: int, inverse: int, m: int, y: int, k: int)
    requires gap * inverse == 97 * m + 1 && gap * y == 97 * k
    ensures y == 97 * (inverse * k - m * y) + 0
  {
    calc {
      y;
      (97 * m + 1) * y - 97 * (m * y);
      gap * inverse * y - 97 * (m * y);
      { Reassociate(gap, inverse, y); }
      inverse * (97 * k) - 97 * (m * y);
      97 * (inverse * k) - 97 * (m * y);
      97 * (inverse * k - m * y);
    }
  }

  lemma Reassociate(a: int, b: int, c: int)
    ensures a * b * c == b * (a * c)
  {
  }

  /** 97 is prime: every digit gap has an inverse. */
  lemma ProductNotDivisible(gap: int, y: int)
    requires 1 <= gap <= 9 && y % 97 != 0
    ensures (gap * y) % 97 != 0
  {
    if (gap * y) % 97 == 0 {
      match gap
      case 1 => Cancel(1, 1, 0, y);
      case 2 => Cancel(2, 49, 1, y);
      case 3 => Cancel(3, 65, 2, y);
      case 4 => Cancel(4, 73, 3, y);
      case 5 => Cancel(5, 39, 2, y);
      case 6 => Cancel(6, 81, 5, y);
      case 7 => Cancel(7, 14, 1, y);
      case 8 => Cancel(8, 85, 7, y);
      case _ => Cancel(9, 54, 5, y);
    }
  }

  /** The powers of ten modulo 97. */
  function Residue(k: nat): (r: nat)
    requires k <= 27
    ensures k > 0 ==> r != 1
    ensures r < 97
  {
    match k
    case 0 => 1
    case 1 => 10
    case 2 => 3
    case 3 => 30
    case 4 => 9
    case 5 => 90
    case 6 => 27
    case 7 => 76
    case 8 => 81
    case 9 => 34
    case 10 => 49
    case 11 => 5
    case 12 => 50
    case 13 => 15
    case 14 => 53
    case 15 => 45
    case 16 => 62
    case 17 => 38
    case 18 => 89
    case 19 => 17
    case 20 => 73
    case 21 => 51
    case 22 => 25
    case 23 => 56
    case 24 => 75
    case 25 => 71
    case 26 => 31
    case _ => 19
  }

  lemma ResidueStep(k: nat)
    requires k < 27
    ensures Residue(k + 1) == (10 * Residue(k)) % 97
  {
  }

  lemma {:induction false} ResidueOfPow10(k: nat)
    requires k <= 27
    ensures Pow10(k) % 97 == Residue(k)
  {
    if k > 0 {
      ResidueOfPow10(k - 1);
      ModStep(Pow10(k - 1));
      ResidueStep(k - 1);
    }
  }

  lemma ModStep(p: int)
    ensures (10 * p) % 97 == (10 * (p % 97)) % 97
  {
    MultipleDropped(10 * (p / 97), 10 * (p % 97));
  }

  lemma MinusOne(p: int, r: int)
    requires p % 97 == r && r != 1
    ensures (p - 1) % 97 != 0
  {
  }

  /** 10 has order 96 modulo 97; up to exponent 27 its powers stay away from 1. */
  lemma PlacesIncongruent(k: nat)
    requires 1 <= k <= 27
    ensures (Pow10(k) - 1) % 97 != 0
  {
    ResidueOfPow10(k);
    MinusOne(Pow10(k), Residue(k));
  }

  /** No two place values of the 28-digit number are congruent modulo 97. */
  lemma PlacesApart(hi: nat, lo: nat)
    requires lo < hi <= 27
    ensures (Pow10(hi) - Pow10(lo)) % 97 != 0
  {
    PowAdd(hi - lo, lo);
    PlacesIncongruent(hi - lo);
    ScaledApart(Pow10(hi - lo), lo);
  }

  lemma ScaledApart(p: int, lo: nat)
    requires (p - 1) % 97 != 0
    ensures (p * Pow10(lo) - Pow10(lo)) % 97 != 0
  {
    DigitGapNotDivisible(p - 1, lo);
    LessOne(p, Pow10(lo));
  }

  lemma LessOne(p: int, q: int)
    ensures (p - 1) * q == p * q - q
  {
  }

  lemma GapNotDivisible(gap: int, y: int)
    requires -9 <= gap <= 9 && gap != 0 && y % 97 != 0
    ensures (gap * y) % 97 != 0
  {
    if gap > 0 {
      ProductNotDivisible(gap, y);
    } else {
      ProductNotDivisible(-gap, y);
      Negate(gap, y);
      Opposite((-gap) * y);
    }
  }

  lemma Negate(a: int, b: int)
    ensures (-a) * b == -(a * b)
  {
  }

  lemma Opposite(y: int)
    requires y % 97 != 0
    ensures (-y) % 97 != 0
  {
  }

  // ----- error detection -----

  /** Where position `i` of the IBAN stands in the rearranged number, as a power of ten. */
  function Place(i: nat): (e: nat)
    requires 2 <= i < 26
    ensures e <= 27
  {
    if i < 4 then 3 - i else 31 - i
  }

  lemma SetDigit(iban: string, i: nat, c: char)
    requires IbanShape(iban) && 2 <= i < 26 && IsDigit(c)
    ensures IbanShape(iban[i := c]) && IsDigit(iban[i])
    ensures ToInt(Rearranged(iban[i := c]))
         == ToInt(Rearranged(iban)) + (Value(c) - Value(iban[i])) * Pow10(Place(i))
  {
    var t := iban[i := c];
    assert t[2..] == iban[2..][i - 2 := c];
    assert iban[i] == iban[2..][i - 2];
    var r := Rearranged(iban);
    var at := 27 - Place(i);
    assert r[at] == iban[i];
    assert Rearranged(t) == r[at := c];
    ToIntSet(r, at, c);
  }

  /** A valid checksum never survives the change of one digit. */
  lemma SubstitutionRejected(iban: string, i: nat, c: char)
    requires IbanShape(iban) && ChecksumValid(iban)
    requires 2 <= i < 26 && IsDigit(c) && c != iban[i]
    ensures IbanValidator(iban[i := c]) == Invalid
  {
    SubstitutedChecksum(iban, i, c);
    VerdictOfIban(iban[i := c]);
  }

  lemma SubstitutedChecksum(iban: string, i: nat, c: char)
    requires IbanShape(iban) && ChecksumValid(iban)
    requires 2 <= i < 26 && IsDigit(c) && c != iban[i]
    ensures IbanShape(iban[i := c]) && !ChecksumValid(iban[i := c])
  {
    SetDigit(iban, i, c);
    SubstitutedResidue(ToInt(Rearranged(iban)), Value(c) - Value(iban[i]), Place(i));
  }

  lemma SubstitutedResidue(x: int, gap: int, e: nat)
    requires x % 97 == 1 && -9 <= gap <= 9 && gap != 0
    ensures (x + gap * Pow10(e)) % 97 != 1
  {
    DigitGapNotDivisible(gap, e);
    ShiftedResidue(x, gap * Pow10(e));
  }

  lemma ShiftedResidue(x: int, shift: int)
    requires x % 97 == 1 && shift % 97 != 0
    ensures (x + shift) % 97 != 1 && (x - shift) % 97 != 1
  {
  }

  /** Nor the exchange of two different digits, wherever they stand: adjacent or not,
      in the body, in the check digits, or one in each. */
  lemma ExchangeRejected(iban: string, i: nat, j: nat)
    requires IbanShape(iban) && ChecksumValid(iban)
    requires 2 <= i < j < 26 && iban[i] != iban[j]
    ensures IbanValidator(iban[i := iban[j]][j := iban[i]]) == Invalid
  {
    ExchangedChecksum(iban, i, j);
    VerdictOfIban(iban[i := iban[j]][j := iban[i]]);
  }

  lemma ExchangedChecksum(iban: string, i: nat, j: nat)
    requires IbanShape(iban) && ChecksumValid(iban)
    requires 2 <= i < j < 26 && iban[i] != iban[j]
    ensures IbanShape(iban[i := iban[j]][j := iban[i]]) && !ChecksumValid(iban[i := iban[j]][j := iban[i]])
  {
    var y := ExchangedNumber(iban, i, j);
    ExchangedResidue(ToInt(Rearranged(iban)), Value(iban[j]) - Value(iban[i]), y);
  }

  /** The difference of two place values is no multiple of 97. */
  lemma PlaceGap(i: nat, j: nat)
    requires 2 <= i < 26 && 2 <= j < 26 && i != j
    ensures (Pow10(Place(i)) - Pow10(Place(j))) % 97 != 0
  {
    if Place(i) > Place(j) {
      PlacesApart(Place(i), Place(j));
    } else {
      PlacesApart(Place(j), Place(i));
      Opposite(Pow10(Place(j)) - Pow10(Place(i)));
    }
  }

  lemma ExchangedNumber(iban: string, i: nat, j: nat) returns (y: int)
    requires IbanShape(iban) && 2 <= i < j < 26
    ensures IsDigit(iban[i]) && IsDigit(iban[j]) && IbanShape(iban[i := iban[j]][j := iban[i]])
    ensures y % 97 != 0
    ensures ToInt(Rearranged(iban[i := iban[j]][j := iban[i]])) ==
              ToInt(Rearranged(iban)) + (Value(iban[j]) - Value(iban[i])) * y
  {
    assert iban[i] == iban[2..][i - 2] && iban[j] == iban[2..][j - 2];
    SetDigit(iban, i, iban[j]);
    SetDigit(iban[i := iban[j]], j, iban[i]);
    PlaceGap(i, j);
    GapTimes(Value(iban[i]), Value(iban[j]), Pow10(Place(i)), Pow10(Place(j)));
    y := Pow10(Place(i)) - Pow10(Place(j));
  }

  lemma GapTimes(a: int, b: int, p: int, q: int)
    ensures (b - a) * p + (a - b) * q == (b - a) * (p - q)
  {
  }

  lemma ExchangedResidue(x: int, gap: int, y: int)
    requires x % 97 == 1 && -9 <= gap <= 9 && gap != 0 && y % 97 != 0
    ensures (x + gap * y) % 97 != 1
  {
    GapNotDivisible(gap, y);
    ShiftedResidue(x, gap * y);
  }

  // ----- the check pair -----

  function WithCheck(body: Decimal, pair: nat): (iban: string)
    requires |body| == 22 && pair <= 99
    ensures IbanShape(iban)
  {
    "IR" + [DigitChar(pair / 10), DigitChar(pair % 10)] + body
  }

  /** The one pair in 02..98 that ISO 7064 prescribes: 98 minus the residue of "body IR 00". */
  function CheckPair(body: Decimal): (pair: nat)
    requires |body| == 22
    ensures 2 <= pair <= 98
  {
    98 - ToInt(body + "182700") % 97
  }

  lemma PairValue(body: Decimal, pair: nat)
    requires |body| == 22 && pair <= 99
    ensures ToInt(Rearranged(WithCheck(body, pair))) == ToInt(body + "182700") + pair
  {
    var digits := [DigitChar(pair / 10), DigitChar(pair % 10)];
    var iban := WithCheck(body, pair);
    assert Body(iban) == body && Check(iban) == digits;
    var stem := body + "1827";
    ToIntConcat(stem, digits);
    ToIntConcat(stem, "00");
    assert stem + "00" == body + "182700";
    TwoDigits(DigitChar(pair / 10), DigitChar(pair % 10));
    TwoDigits('0', '0');
  }

  lemma TwoDigits(c: char, d: char)
    requires IsDigit(c) && IsDigit(d)
    ensures AllDigits([c, d]) && ToInt([c, d]) == 10 * Value(c) + Value(d)
  {
    var s: Decimal := [c, d];
    assert s[..1] == [c] && [c][..0] == "";
    assert ToInt([c]) == Value(c);
  }

  /** Every body has exactly one check pair in 02..98. The pairs 00, 01 and 99, which the
      validator does not exclude, pass only as the aliases of 97, 98 and 02. */
  lemma CheckPairUnique(body: Decimal, pair: nat)
    requires |body| == 22 && pair <= 99
    ensures IbanValidator(WithCheck(body, pair)) in {Accepted, MergedBank} <==>
              pair == CheckPair(body) || pair == CheckPair(body) + 97 || pair == CheckPair(body) - 97
  {
    PairValue(body, pair);
    VerdictOfIban(WithCheck(body, pair));
    PairArithmetic(ToInt(body + "182700"), pair);
  }

  lemma PairArithmetic(rest: int, pair: nat)
    requires pair <= 99
    ensures var check := 98 - rest % 97;
            (rest + pair) % 97 == 1 <==> pair == check || pair == check + 97 || pair == check - 97
  {
    var q, r := rest / 97, rest % 97;
    assert rest + pair == 97 * q + (r + pair);
    assert (rest + pair) % 97 == (r + pair) % 97;
  }
}

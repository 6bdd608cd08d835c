/** Persian name handling (accounts/utils/similarity.py). */
module Names {
  import opened Words

  // ----- cleaning -----

  /** Characters for which `str.isspace` holds and which `\s` matches. */
  predicate IsSpace(c: char) {
    '\U{0009}' <= c <= '\U{000D}' || '\U{001C}' <= c <= '\U{0020}' || c == '\U{0085}' || c == '\U{00A0}' ||
    c == '\U{1680}' || '\U{2000}' <= c <= '\U{200A}' || c == '\U{2028}' || c == '\U{2029}' || c == '\U{202F}' ||
    c == '\U{205F}' || c == '\U{3000}'
  }

  /** The character table: Arabic letter forms become Persian ones, vowel signs disappear. */
  function Translate(c: char): (t: string)
    ensures |t| <= 1
    ensures IsSpace(c) ==> t == [c]
  {
    if c in {'\U{0643}'} then "\U{06A9}"
    else if c in {'\U{064A}', '\U{0626}'} then "\U{06CC}"
    else if c in {'\U{0623}', '\U{0625}', '\U{0622}', '\U{FE8E}'} then "\U{0627}"
    else if c in {'\U{06C0}', '\U{0629}'} then "\U{0647}"
    else if c in {'\U{0621}', '\U{0651}', '\U{064E}', '\U{0650}', '\U{064F}', '\U{064B}',
                  '\U{064D}', '\U{064C}', '\U{0652}', '\U{0653}', '\U{0670}', '\U{0654}'} then ""
    else if c in {'\U{0624}'} then "\U{0648}"
    else if c in {'\U{FED3}'} then "\U{0641}"
    else if c in {'\U{FECC}'} then "\U{0639}"
    else if c in {'\U{FEDD}'} then "\U{0644}"
    else [c]
  }

  /** No image of the table is a key of it. */
  lemma TranslateSettles(c: char)
    ensures Translate(c) != "" ==> Translate(Translate(c)[0]) == Translate(c)
  {
  }

  function TranslateAll(s: string): string {
    if s == "" then "" else TranslateAll(s[..|s| - 1]) + Translate(s[|s| - 1])
  }

  function StripLeft(s: string): (t: string)
    ensures t != "" ==> !IsSpace(t[0])
    ensures |t| <= |s| && t == s[|s| - |t|..]
  {
    if s != "" && IsSpace(s[0]) then StripLeft(s[1..]) else s
  }

  function StripRight(s: string): (t: string)
    ensures t != "" ==> !IsSpace(t[|t| - 1])
    ensures |t| <= |s| && t == s[..|t|]
  {
    if s != "" && IsSpace(s[|s| - 1]) then StripRight(s[..|s| - 1]) else s
  }

  /** Every run of white space becomes one blank. */
  function Collapse(s: string): string
    decreases |s|
  {
    if s == "" then ""
    else if IsSpace(s[0]) then " " + Collapse(StripLeft(s[1..]))
    else [s[0]] + Collapse(s[1..])
  }

  function Clean(name: string): string {
    Collapse(StripRight(StripLeft(TranslateAll(name))))
  }

  ghost predicate Fixed(s: string) {
    forall i :: 0 <= i < |s| ==> Translate(s[i]) == [s[i]]
  }

  /** Blanks are the only white space. */
  ghost predicate Blanks(s: string) {
    forall i :: 0 <= i < |s| && IsSpace(s[i]) ==> s[i] == ' '
  }

  /** Nothing left to translate, blanks the only white space, none at the ends, no two in a row. */
  ghost predicate Normal(s: string) {
    Fixed(s) && Blanks(s) && Spaced(s)
  }

  lemma {:induction false} TranslateAllFixed(s: string)
    ensures Fixed(TranslateAll(s))
  {
    if s != "" {
      TranslateAllFixed(s[..|s| - 1]);
      TranslateSettles(s[|s| - 1]);
    }
  }

  lemma TranslateLast(s: string, init: string, c: char)
    requires s == init + [c]
    ensures TranslateAll(s) == TranslateAll(init) + Translate(c)
  {
    assert s[..|s| - 1] == init;
  }

  lemma {:induction false} FixedStays(s: string)
    requires Fixed(s)
    ensures TranslateAll(s) == s
  {
    if s != "" {
      var init := s[..|s| - 1];
      FixedStays(init);
      assert s == init + [s[|s| - 1]];
      TranslateLast(s, init, s[|s| - 1]);
    }
  }

  lemma PrependFixed(c: char, s: string)
    requires Fixed(s) && Blanks(s) && Translate(c) == [c] && (IsSpace(c) ==> c == ' ')
    ensures Fixed([c] + s) && Blanks([c] + s)
  {
  }

  lemma {:induction false} CollapseFixed(s: string)
    requires Fixed(s)
    ensures Fixed(Collapse(s)) && Blanks(Collapse(s))
    decreases |s|
  {
    if s != "" {
      if IsSpace(s[0]) {
        var rest := StripLeft(s[1..]);
        CollapseFixed(rest);
        PrependFixed(' ', Collapse(rest));
      } else {
        CollapseFixed(s[1..]);
        PrependFixed(s[0], Collapse(s[1..]));
      }
    }
  }

  // ----- what is left of a name -----

  /** How many characters precede the first white space. */
  function WordLength(s: string): (n: nat)
    ensures n <= |s| && (n < |s| ==> IsSpace(s[n])) && forall i :: 0 <= i < n ==> !IsSpace(s[i])
  {
    if s == "" || IsSpace(s[0]) then 0 else 1 + WordLength(s[1..])
  }

  /** The pieces between white space. */
  function Tokens(s: string): seq<string>
    decreases |s|
  {
    if s == "" then []
    else if IsSpace(s[0]) then Tokens(s[1..])
    else [s[..WordLength(s)]] + Tokens(s[WordLength(s)..])
  }

  lemma {:induction false} TokensProper(s: string)
    ensures Proper(Tokens(s))
    decreases |s|
  {
    if s == "" {
    } else if IsSpace(s[0]) {
      TokensProper(s[1..]);
    } else {
      TokensProper(s[WordLength(s)..]);
    }
  }

  lemma {:induction false} TokensStripLeft(s: string)
    ensures Tokens(StripLeft(s)) == Tokens(s)
  {
    if s != "" && IsSpace(s[0]) {
      TokensStripLeft(s[1..]);
    }
  }

  lemma {:induction false} WordLengthTrailing(s: string, c: char)
    requires IsSpace(c)
    ensures WordLength(s + [c]) == WordLength(s)
  {
    if s != "" && !IsSpace(s[0]) {
      assert (s + [c])[1..] == s[1..] + [c];
      WordLengthTrailing(s[1..], c);
    }
  }

  lemma {:induction false} TokensTrailing(s: string, c: char)
    requires IsSpace(c)
    ensures Tokens(s + [c]) == Tokens(s)
    decreases |s|
  {
    if s == "" {
      assert Tokens([c][1..]) == [];
    } else if IsSpace(s[0]) {
      assert (s + [c])[1..] == s[1..] + [c];
      TokensTrailing(s[1..], c);
    } else {
      var n := WordLength(s);
      WordLengthTrailing(s, c);
      assert (s + [c])[..n] == s[..n] && (s + [c])[n..] == s[n..] + [c];
      TokensTrailing(s[n..], c);
    }
  }

  lemma {:induction false} TokensStripRight(s: string)
    ensures Tokens(StripRight(s)) == Tokens(s)
  {
    if s != "" && IsSpace(s[|s| - 1]) {
      var init := s[..|s| - 1];
      TokensStripRight(init);
      TokensTrailing(init, s[|s| - 1]);
      assert s == init + [s[|s| - 1]];
    }
  }

  lemma CollapseLetter(s: string)
    requires s != "" && !IsSpace(s[0])
    ensures Collapse(s) == [s[0]] + Collapse(s[1..]) && WordLength(s) == 1 + WordLength(s[1..])
  {
  }

  lemma {:induction false} CollapseWord(s: string, n: nat)
    requires n <= WordLength(s)
    ensures Collapse(s) == s[..n] + Collapse(s[n..])
  {
    if n == 0 {
      assert s[0..] == s && s[..0] == "";
    } else {
      CollapseLetter(s);
      var t := s[1..];
      CollapseWord(t, n - 1);
      Shift(s, t, n, Collapse(t), Collapse(t[n - 1..]));
    }
  }

  lemma Shift(s: string, t: string, n: nat, whole: string, rest: string)
    requires 0 < n <= |s| && t == s[1..] && whole == t[..n - 1] + rest
    ensures [s[0]] + whole == s[..n] + rest && t[n - 1..] == s[n..]
  {
    assert s[..n] == [s[0]] + t[..n - 1];
  }

  lemma {:induction false} LastSurvives(s: string)
    requires s != "" && !IsSpace(s[|s| - 1])
    ensures StripLeft(s) != "" && !IsSpace(StripLeft(s)[|StripLeft(s)| - 1])
  {
    if IsSpace(s[0]) {
      assert |s| > 1;
      LastSurvives(s[1..]);
    }
  }

  /** Collapsing stripped text leaves its pieces, one blank apart. */
  lemma {:induction false} CollapseTokens(s: string)
    requires s != "" ==> !IsSpace(s[0]) && !IsSpace(s[|s| - 1])
    ensures Collapse(s) == Join(Tokens(s))
    decreases |s|
  {
    if s != "" {
      var n := WordLength(s);
      if n < |s| {
        var w, rest := s[..n], s[n..];
        CollapseWord(s, n);
        CollapseGap(rest);
        TokensStep(s);
        JoinCons(w, Tokens(rest));
        Assoc(w, " ", Join(Tokens(rest)));
      } else {
        CollapseWord(s, n);
        OneToken(s);
      }
    }
  }

  lemma Assoc(a: string, b: string, c: string)
    ensures a + (b + c) == a + b + c
  {
  }

  lemma TokensStep(s: string)
    requires s != "" && !IsSpace(s[0])
    ensures Tokens(s) == [s[..WordLength(s)]] + Tokens(s[WordLength(s)..])
  {
  }

  lemma OneToken(s: string)
    requires s != "" && WordLength(s) == |s|
    ensures Join(Tokens(s)) == s && s[..|s|] + Collapse(s[|s|..]) == s
  {
    assert s[..|s|] == s && s[|s|..] == "" && Tokens(s) == [s];
  }

  lemma {:induction false} CollapseGap(rest: string)
    requires rest != "" && IsSpace(rest[0]) && !IsSpace(rest[|rest| - 1])
    ensures Collapse(rest) == " " + Join(Tokens(rest)) && Tokens(rest) != []
    decreases |rest|
  {
    var u := StripLeft(rest[1..]);
    LastSurvives(rest[1..]);
    CollapseTokens(u);
    TokensStripLeft(rest[1..]);
  }

  /** A cleaned name is the translated one's pieces, one blank apart: cleaning loses no letter, joins
      no words and parts none. */
  lemma CleanIsTokens(name: string)
    ensures Clean(name) == Join(Tokens(TranslateAll(name)))
    ensures Tokens(TranslateAll(name)) != [] ==> Split(Clean(name)) == Tokens(TranslateAll(name))
  {
    var t := TranslateAll(name);
    StripEnds(t);
    CollapseTokens(StripRight(StripLeft(t)));
    TokensStripLeft(t);
    TokensStripRight(StripLeft(t));
    TokensProper(t);
    if Tokens(t) != [] {
      SplitJoin(Tokens(t));
    }
  }

  lemma StripEnds(t: string)
    ensures var s := StripRight(StripLeft(t)); s != "" ==> !IsSpace(s[0]) && !IsSpace(s[|s| - 1])
  {
  }

  /** Translation goes character by character. */
  lemma {:induction false} TranslateConcat(s: string, t: string)
    ensures TranslateAll(s + t) == TranslateAll(s) + TranslateAll(t)
  {
    if t == "" {
      assert s + t == s;
    } else {
      var n := |t| - 1;
      TranslateConcat(s, t[..n]);
      ConcatStep(s, t[..n], t[n], t);
    }
  }

  lemma ConcatStep(s: string, init: string, c: char, t: string)
    requires t == init + [c] && TranslateAll(s + init) == TranslateAll(s) + TranslateAll(init)
    ensures TranslateAll(s + t) == TranslateAll(s) + TranslateAll(t)
  {
    Assoc(s, init, [c]);
    TranslateLast(s + t, s + init, c);
    TranslateLast(t, init, c);
    Assoc(TranslateAll(s), TranslateAll(init), Translate(c));
  }

  /** The character table: Arabic letter forms and what they become. */
  lemma TranslateLetters()
    ensures Translate('\U{0643}') == "\U{06A9}" && Translate('\U{064A}') == Translate('\U{0626}') == "\U{06CC}"
    ensures Translate('\U{0623}') == Translate('\U{0625}') == Translate('\U{0622}') == Translate('\U{FE8E}') == "\U{0627}"
    ensures Translate('\U{06C0}') == Translate('\U{0629}') == "\U{0647}" && Translate('\U{0624}') == "\U{0648}"
    ensures Translate('\U{FED3}') == "\U{0641}" && Translate('\U{FECC}') == "\U{0639}" && Translate('\U{FEDD}') == "\U{0644}"
  {
  }

  /** Hamza and the vowel signs disappear, everything else stays. */
  lemma TranslateOthers(c: char)
    ensures Translate(c) == "" <==> c == '\U{0621}' || c == '\U{0670}' || '\U{064B}' <= c <= '\U{0654}'
    ensures Translate(c) == [c] <==>
              && !('\U{0621}' <= c <= '\U{0626}') && !('\U{064A}' <= c <= '\U{0654}') && c != '\U{0629}' && c != '\U{0643}'
              && c != '\U{0670}' && c != '\U{06C0}' && c != '\U{FE8E}' && c != '\U{FED3}' && c != '\U{FECC}' && c != '\U{FEDD}'
  {
  }

  lemma CleanIsNormal(name: string)
    ensures Normal(Clean(name))
  {
    var t := TranslateAll(name);
    TranslateAllFixed(name);
    CollapseFixed(StripRight(StripLeft(t)));
    CleanIsTokens(name);
    TokensProper(t);
    JoinSpaced(Tokens(t));
  }

  lemma {:induction false} NormalCollapses(s: string)
    requires Blanks(s) && (s != "" ==> s[|s| - 1] != ' ')
    requires forall i :: 0 <= i < |s| - 1 ==> !(s[i] == ' ' && s[i + 1] == ' ')
    ensures Collapse(s) == s
    decreases |s|
  {
    if s != "" {
      var t := s[1..];
      assert forall i :: 0 <= i < |t| ==> t[i] == s[i + 1];
      NormalCollapses(t);
      if IsSpace(s[0]) {
        assert s[0] == ' ' && t != "";
        assert t[0] == s[1] && t[0] != ' ';
        assert StripLeft(t) == t;
      }
    }
  }

  /** Cleaning a cleaned name changes nothing. */
  lemma CleanIdempotent(name: string)
    ensures Clean(Clean(name)) == Clean(name)
  {
    var s := Clean(name);
    CleanIsNormal(name);
    FixedStays(s);
    NormalCollapses(s);
  }

  // ----- similarity -----

  const THRESHOLD: real := 0.79

  /** The last test compares as many leading words of the longer name as the shorter one has.
      The length test around it compares a number with a list, so it never skips it. */
  predicate PrefixSimilar(name1: string, name2: string, rate: (string, string) -> real) {
    var p1, p2 := Split(name1), Split(name2);
    var (small, long) := if |p1| > |p2| then (p2, p1) else (p1, p2);
    rate(Join(small), Join(long[..|small|])) >= THRESHOLD
  }

  /** The first name, its words rotated `i` times, is close enough to the second. */
  predicate RotationSimilar(words: seq<string>, name2: string, rate: (string, string) -> real, i: nat)
    requires i <= |words|
  {
    rate(Join(Rotate(words, i)), name2) >= THRESHOLD
  }

  ghost predicate SomeRotation(words: seq<string>, name2: string, rate: (string, string) -> real) {
    exists i: nat :: i < |words| && RotationSimilar(words, name2, rate, i)
  }

  ghost predicate Similar(name1: string, name2: string, rate: (string, string) -> real) {
    SomeRotation(Split(name1), name2, rate) || PrefixSimilar(name1, name2, rate)
  }

  /** The tests in words: the i-th rotation moves the last i words to the front; the prefix test takes
      the name with fewer words first and as many leading words of the other. */
  lemma SimilarInWords(name1: string, name2: string, rate: (string, string) -> real, i: nat)
    ensures var p1, p2 := Split(name1), Split(name2);
            && (i <= |p1| ==> (RotationSimilar(p1, name2, rate, i) <==>
                                 rate(Join(p1[|p1| - i..] + p1[..|p1| - i]), name2) >= 0.79))
            && (PrefixSimilar(name1, name2, rate) <==>
                  if |p1| <= |p2| then rate(Join(p1), Join(p2[..|p1|])) >= 0.79 else rate(Join(p2), Join(p1[..|p2|])) >= 0.79)
  {
  }

  /** `name_similarity`, for any similarity measure: some rotation of the first name's words is
      close enough to the second name, or the unrotated names agree on a common prefix of words. */
  method NameSimilarity(first: string, second: string, rate: (string, string) -> real) returns (similar: bool)
    ensures similar <==> Similar(Clean(first), Clean(second), rate)
  {
    similar := CompareWords(Clean(first), Clean(second), rate);
  }

  /** The two tests over two cleaned names. */
  method CompareWords(cleaned: string, name2: string, rate: (string, string) -> real) returns (similar: bool)
    ensures similar <==> Similar(cleaned, name2, rate)
  {
    var name1;
    similar, name1 := CompareRotations(cleaned, name2, rate);
    if !similar {
      similar := ComparePrefixes(name1, name2, rate);
    }
  }

  /** The rotation loop; if it finds nothing, `name1` has come back to where it started. */
  method CompareRotations(cleaned: string, name2: string, rate: (string, string) -> real) returns (similar: bool, name1: string)
    ensures similar <==> SomeRotation(Split(cleaned), name2, rate)
    ensures !similar ==> name1 == cleaned
  {
    name1 := cleaned;
    ghost var words := Split(cleaned);
    var words1 := |Split(name1)|;
    RotateZero(words);
    for i := 0 to words1
      invariant Turned(name1, words, i)
      invariant forall j: nat :: j < i ==> !RotationSimilar(words, name2, rate, j)
    {
      similar := rate(name1, name2) >= THRESHOLD;
      TurnedSimilar(name1, words, name2, rate, i);
      if similar {
        return;
      }
      name1 := Advance(name1, words, i);
    }
    CameBack(name1, cleaned);
    similar := false;
  }

  method Advance(name1: string, ghost words: seq<string>, ghost i: nat) returns (next: string)
    requires i < |words| && Turned(name1, words, i)
    ensures Turned(next, words, i + 1)
  {
    OneMore(name1, words, i);
    next := RotateWords(name1);
  }

  lemma TurnedSimilar(name1: string, words: seq<string>, name2: string, rate: (string, string) -> real, i: nat)
    requires Turned(name1, words, i)
    ensures rate(name1, name2) >= THRESHOLD <==> RotationSimilar(words, name2, rate, i)
  {
    TurnedText(name1, words, i);
  }

  /** The closing test of `name_similarity`. */
  method ComparePrefixes(name1: string, name2: string, rate: (string, string) -> real) returns (similar: bool)
    ensures similar <==> PrefixSimilar(name1, name2, rate)
  {
    var small, long := Split(name1), Split(name2);
    if |small| > |long| {
      small, long := long, small;
    }
    return rate(Join(small), Join(long[..|small|])) >= THRESHOLD;
  }

  // ----- first and last name -----

  const MULTI_WORD_NAMES := [
    ("\U{0627}\U{0645}\U{06CC}\U{0631}", "\U{0631}\U{0636}\U{0627}"),
    ("\U{0627}\U{0645}\U{06CC}\U{0631}", "\U{062D}\U{0633}\U{06CC}\U{0646}"),
    ("\U{0645}\U{062D}\U{0645}\U{062F}", "\U{062D}\U{0633}\U{06CC}\U{0646}"),
    ("\U{0631}\U{0648}\U{062D}", "\U{0627}\U{0644}\U{0644}\U{0647}"),
    ("\U{0627}\U{0645}\U{06CC}\U{0631}", "\U{0639}\U{0644}\U{06CC}"),
    ("\U{0645}\U{062D}\U{0645}\U{062F}", "\U{062D}\U{0633}\U{0646}"),
    ("\U{0642}\U{062F}\U{0645}", "\U{062E}\U{06CC}\U{0631}"),
    ("\U{0627}\U{0645}\U{06CC}\U{0631}", "\U{0645}\U{0647}\U{062F}\U{06CC}"),
    ("\U{0646}\U{0627}\U{0632}\U{0646}\U{06CC}\U{0646}", "\U{0632}\U{0647}\U{0631}\U{0627}"),
    ("\U{0645}\U{062D}\U{0645}\U{062F}", "\U{0645}\U{0647}\U{062F}\U{06CC}"),
    ("\U{0645}\U{062D}\U{0645}\U{062F}", "\U{0631}\U{0636}\U{0627}")
  ]

  const SEYYED := "\U{0633}\U{06CC}\U{062F}"
  const SEYYEDE := "\U{0633}\U{06CC}\U{062F}\U{0647}"

  predicate IsTitle(word: string) {
    word in [SEYYED, SEYYEDE]
  }

  predicate IsDoubleName(first: string, second: string) {
    Listed(MULTI_WORD_NAMES, (first, second))
  }

  predicate Listed(names: seq<(string, string)>, pair: (string, string)) {
    names != [] && (names[0] == pair || Listed(names[1..], pair))
  }

  /** How many leading words belong to the first name: titles, a one-letter word and the first half
      of a known double name are only taken along while at least two words would follow. */
  function FirstWords(parts: seq<string>): (n: nat)
    requires parts != []
    ensures 1 <= n <= 4 && n <= |parts| && (|parts| >= 2 ==> n < |parts|)
  {
    var i := if |parts| > 2 && IsTitle(parts[0]) then 1 else 0;
    var j := if |parts| - i > 2 && |parts[i]| <= 1 then i + 1 else i;
    var k := if |parts| - j > 2 && IsDoubleName(parts[j], parts[j + 1]) then j + 1 else j;
    k + 1
  }

  /** How many words go to the first name. At least two words must follow where a title, a single
      letter or the first half of a double name is taken along, so up to two words take none, three
      words one of them, four words two, and more words all three. */
  lemma FirstNameWords(parts: seq<string>)
    requires parts != []
    ensures |parts| <= 2 ==> FirstWords(parts) == 1
    ensures |parts| == 3 ==>
              FirstWords(parts) == if Title(parts, 0) || Letter(parts, 0) || Double(parts, 0) then 2 else 1
    ensures |parts| == 4 ==>
              FirstWords(parts) == if Title(parts, 0) && Letter(parts, 1) then 3
                                   else if Title(parts, 0) || Letter(parts, 0) then if Double(parts, 1) then 3 else 2
                                   else if Double(parts, 0) then 2 else 1
    ensures |parts| >= 5 ==>
              var title := if Title(parts, 0) then 1 else 0;
              var letter := if Letter(parts, title) then 1 else 0;
              FirstWords(parts) == 1 + title + letter + if Double(parts, title + letter) then 1 else 0
  {
    forall k | 0 <= k < |parts| - 1
      ensures IsDoubleName(parts[k], parts[k + 1]) <==> Double(parts, k)
    {
      ListedMember(MULTI_WORD_NAMES, (parts[k], parts[k + 1]));
    }
  }

  predicate Title(parts: seq<string>, k: nat)
    requires k < |parts|
  {
    parts[k] == "\U{0633}\U{06CC}\U{062F}" || parts[k] == "\U{0633}\U{06CC}\U{062F}\U{0647}"
  }

  predicate Letter(parts: seq<string>, k: nat)
    requires k < |parts|
  {
    |parts[k]| < 2
  }

  predicate Double(parts: seq<string>, k: nat)
    requires k + 1 < |parts|
  {
    (parts[k], parts[k + 1]) in MULTI_WORD_NAMES
  }

  lemma {:induction false} ListedMember(names: seq<(string, string)>, pair: (string, string))
    ensures Listed(names, pair) <==> pair in names
  {
    if names != [] {
      ListedMember(names[1..], pair);
    }
  }

  function FirstName(name: string): string {
    var parts := Split(Clean(name));
    Join(parts[..FirstWords(parts)])
  }

  function LastName(name: string): string {
    var parts := Split(Clean(name));
    Join(parts[FirstWords(parts)..])
  }

  lemma PartsRejoin(s: string)
    requires Normal(s)
    ensures var parts := Split(s); var n := FirstWords(parts); var first, last := Join(parts[..n]), Join(parts[n..]);
            (|parts| == 1 ==> first == s && last == "") &&
            (|parts| >= 2 ==> first != "" && last != "" && first + " " + last == s)
  {
    var parts := Split(s);
    if |parts| >= 2 {
      SplitRejoins(s, FirstWords(parts));
    } else {
      JoinSplit(s);
      assert parts[..1] == parts && parts[1..] == [];
    }
  }

  /** One word is a first name without a last one; of two or more words neither part is empty and
      together they are the cleaned name. */
  lemma NameParts(name: string)
    ensures |Split(Clean(name))| == 1 ==> FirstName(name) == Clean(name) && LastName(name) == ""
    ensures |Split(Clean(name))| >= 2 ==>
              FirstName(name) != "" && LastName(name) != "" && FirstName(name) + " " + LastName(name) == Clean(name)
  {
    CleanIsNormal(name);
    PartsRejoin(Clean(name));
  }

  /** `split_names`: of two or more words neither part is empty and together they are the cleaned name. */
  method SplitNames(name: string) returns (first: string, last: string)
    ensures first == FirstName(name) && last == LastName(name)
    ensures |Split(Clean(name))| == 1 ==> first == Clean(name) && last == ""
    ensures |Split(Clean(name))| >= 2 ==> first != "" && last != "" && first + " " + last == Clean(name)
  {
    first, last := SplitCleaned(Clean(name));
    NameParts(name);
  }

  method SplitCleaned(name: string) returns (first: string, last: string)
    ensures var parts := Split(name); first == Join(parts[..FirstWords(parts)]) && last == Join(parts[FirstWords(parts)..])
  {
    var parts := Split(name);
    var n := CountFirstWords(parts);
    first, last := Join(parts[..n]), Join(parts[n..]);
  }

  method CountFirstWords(parts: seq<string>) returns (n: nat)
    requires parts != []
    ensures n == FirstWords(parts)
  {
    var firstIndex := 0;
    var words := |parts|;
    if words - firstIndex > 2 && IsTitle(parts[firstIndex]) {
      firstIndex := firstIndex + 1;
    }
    if words - firstIndex > 2 && |parts[firstIndex]| <= 1 {
      firstIndex := firstIndex + 1;
    }
    if words - firstIndex > 2 && IsDoubleName(parts[firstIndex], parts[firstIndex + 1]) {
      firstIndex := firstIndex + 1;
    }
    return firstIndex + 1;
  }

  lemma SplitRejoins(s: string, n: nat)
    requires s != "" && Spaced(s) && 1 <= n < |Split(s)|
    ensures var parts := Split(s);
            Join(parts[..n]) != "" && Join(parts[n..]) != "" && Join(parts[..n]) + " " + Join(parts[n..]) == s
  {
    var parts := Split(s);
    var a, b := parts[..n], parts[n..];
    WordsNonEmpty(s, n - 1);
    WordsNonEmpty(s, |parts| - 1);
    assert a[|a| - 1] == parts[n - 1] && b[|b| - 1] == parts[|parts| - 1];
    JoinNonEmpty(a);
    JoinNonEmpty(b);
    assert a + b == parts;
    JoinConcat(a, b);
    JoinSplit(s);
  }
}

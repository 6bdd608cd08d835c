/** Blank-separated words: `s.split(' ')`, `' '.join(words)` and rotation (accounts/utils/similarity.py). */
module Words {

  /** `words` with `w` glued to the last of them. */
  function Extend(words: seq<string>, w: string): (r: seq<string>)
    requires words != []
    ensures |r| == |words|
  {
    words[..|words| - 1] + [words[|words| - 1] + w]
  }

  /** `s.split(' ')`. */
  function Split(s: string): (words: seq<string>)
    ensures words != []
  {
    if s == "" then [""]
    else
      var before := Split(s[..|s| - 1]);
      var c := s[|s| - 1];
      if c == ' ' then before + [""] else Extend(before, [c])
  }

  /** No word of `words` contains a blank. */
  ghost predicate BlankFree(words: seq<string>) {
    forall k :: 0 <= k < |words| ==> ' ' !in words[k]
  }

  lemma {:induction false} SplitBlankFree(s: string)
    ensures BlankFree(Split(s))
  {
    if s != "" {
      SplitBlankFree(s[..|s| - 1]);
    }
  }

  /** `' '.join(words)`. */
  function Join(words: seq<string>): string {
    if words == [] then ""
    else if |words| == 1 then words[0]
    else Join(words[..|words| - 1]) + " " + words[|words| - 1]
  }

  lemma JoinAppend(words: seq<string>, w: string)
    requires words != []
    ensures Join(words + [w]) == Join(words) + " " + w
  {
    assert (words + [w])[..|words|] == words;
  }

  lemma JoinExtend(words: seq<string>, w: string)
    requires words != []
    ensures Join(Extend(words, w)) == Join(words) + w
  {
    var init, last := words[..|words| - 1], words[|words| - 1];
    if init != [] {
      JoinAppend(init, last + w);
      JoinAppend(init, last);
      assert words == init + [last];
      assert Join(init) + " " + (last + w) == Join(init) + " " + last + w;
    }
  }

  lemma {:induction false} JoinSplit(s: string)
    ensures Join(Split(s)) == s
  {
    if s != "" {
      var before, c := Split(s[..|s| - 1]), s[|s| - 1];
      JoinSplit(s[..|s| - 1]);
      if c == ' ' {
        JoinAppend(before, "");
      } else {
        JoinExtend(before, [c]);
      }
    }
  }

  lemma SplitBlank(s: string)
    ensures Split(s + " ") == Split(s) + [""]
  {
    assert (s + " ")[..|s|] == s;
  }

  lemma SplitChar(s: string, c: char)
    requires c != ' '
    ensures Split(s + [c]) == Extend(Split(s), [c])
  {
    assert (s + [c])[..|s|] == s;
  }

  lemma ExtendTwice(words: seq<string>, v: string, w: string)
    requires words != []
    ensures Extend(Extend(words, v), w) == Extend(words, v + w)
  {
    assert (words[|words| - 1] + v) + w == words[|words| - 1] + (v + w);
  }

  /** Appending characters that are no blanks only extends the last word. */
  lemma {:induction false} SplitExtend(s: string, w: string)
    requires ' ' !in w
    ensures Split(s + w) == Extend(Split(s), w)
  {
    if w == "" {
      assert s + w == s;
      var words := Split(s);
      assert words[|words| - 1] + w == words[|words| - 1];
    } else {
      var v, c := w[..|w| - 1], w[|w| - 1];
      assert c in w && w == v + [c];
      SplitExtend(s, v);
      calc {
        Split(s + w);
        { assert s + w == (s + v) + [c]; }
        Split((s + v) + [c]);
        { SplitChar(s + v, c); }
        Extend(Split(s + v), [c]);
        Extend(Extend(Split(s), v), [c]);
        { ExtendTwice(Split(s), v, [c]); }
        Extend(Split(s), w);
      }
    }
  }

  lemma {:induction false} SplitJoin(words: seq<string>)
    requires words != [] && BlankFree(words)
    ensures Split(Join(words)) == words
  {
    var n := |words| - 1;
    var last := words[n];
    assert last + "" == last && "" + last == last;
    if n == 0 {
      SplitExtend("", last);
      assert words == [last];
    } else {
      var init := words[..n];
      SplitJoin(init);
      SplitLast(Join(init), init, last);
      assert words == init + [last];
    }
  }

  lemma SplitLast(s: string, words: seq<string>, last: string)
    requires Split(s) == words && ' ' !in last
    ensures Split(s + " " + last) == words + [last]
  {
    SplitBlank(s);
    SplitExtend(s + " ", last);
    assert "" + last == last;
    assert Extend(words + [""], last) == words + [last];
  }

  lemma Reassociate(a: string, b: string, c: string)
    ensures a + " " + (b + " " + c) == a + " " + b + " " + c
  {
  }

  lemma {:induction false} JoinConcat(a: seq<string>, b: seq<string>)
    requires a != [] && b != []
    ensures Join(a + b) == Join(a) + " " + Join(b)
  {
    var n := |b| - 1;
    var init, last := b[..n], b[n];
    assert b == init + [last];
    JoinAppend(a + init, last);
    assert (a + init) + [last] == a + b;
    if n == 0 {
      assert a + init == a;
    } else {
      JoinConcat(a, init);
      JoinAppend(init, last);
      Reassociate(Join(a), Join(init), last);
    }
  }

  lemma {:induction false} JoinNonEmpty(words: seq<string>)
    requires words != [] && words[|words| - 1] != ""
    ensures Join(words) != ""
  {
    if |words| > 1 {
      assert Join(words)[|Join(words)| - 1] == words[|words| - 1][|words[|words| - 1]| - 1];
    }
  }

  /** No blank at the ends, no two in a row. */
  ghost predicate Spaced(s: string) {
    && (s != "" ==> s[0] != ' ' && s[|s| - 1] != ' ')
    && (forall i :: 0 <= i < |s| - 1 ==> !(s[i] == ' ' && s[i + 1] == ' '))
  }

  lemma SpacedAppend(s: string, w: string)
    requires s != "" && Spaced(s) && w != "" && ' ' !in w
    ensures Spaced(s + " " + w)
  {
    var t, n := s + " " + w, |s|;
    assert t[n] == ' ' && t[n - 1] == s[n - 1] && t[0] == s[0] && t[|t| - 1] == w[|w| - 1];
    forall i | 0 <= i < |t| - 1
      ensures !(t[i] == ' ' && t[i + 1] == ' ')
    {
      if i < n - 1 {
        assert t[i] == s[i] && t[i + 1] == s[i + 1];
      } else if i >= n {
        assert t[i + 1] == w[i - n];
      }
    }
  }

  /** Non-empty words without blanks. */
  ghost predicate Proper(words: seq<string>) {
    BlankFree(words) && forall k :: 0 <= k < |words| ==> words[k] != ""
  }

  lemma {:induction false} JoinSpaced(words: seq<string>)
    requires Proper(words)
    ensures Spaced(Join(words)) && (words != [] ==> Join(words) != "")
  {
    var n := |words| - 1;
    if n == 0 {
      assert forall i :: 0 <= i < |words[0]| ==> words[0][i] in words[0];
    } else if n > 0 {
      JoinSpaced(words[..n]);
      SpacedAppend(Join(words[..n]), words[n]);
    }
  }

  lemma {:induction false} JoinCons(w: string, words: seq<string>)
    requires words != []
    ensures Join([w] + words) == w + " " + Join(words)
  {
    var n := |words| - 1;
    assert ([w] + words)[..n + 1] == [w] + words[..n];
    if n > 0 {
      JoinCons(w, words[..n]);
      assert w + " " + Join(words[..n]) + " " + words[n] == w + " " + (Join(words[..n]) + " " + words[n]);
    }
  }

  /** The words of a well-spaced text are not empty, the last one only if the text goes on. */
  lemma {:induction false} WordsNonEmpty(s: string, k: nat)
    requires s != "" && s[0] != ' ' && forall i :: 0 <= i < |s| - 1 ==> !(s[i] == ' ' && s[i + 1] == ' ')
    requires k < |Split(s)| && (k == |Split(s)| - 1 ==> s[|s| - 1] != ' ')
    ensures Split(s)[k] != ""
  {
    var n := |s| - 1;
    var t := s[..n];
    if n > 0 {
      assert t[n - 1] == s[n - 1];
      assert forall i :: 0 <= i < n ==> t[i] == s[i];
      if s[n] == ' ' || k < |Split(t)| - 1 {
        WordsNonEmpty(t, k);
      }
    }
  }

  // ----- rotation -----

  /** The last `i` words moved to the front. */
  function Rotate(words: seq<string>, i: nat): (r: seq<string>)
    requires i <= |words|
    ensures |r| == |words|
  {
    words[|words| - i..] + words[..|words| - i]
  }

  function RotateWords(s: string): string {
    Join(Rotate(Split(s), 1))
  }

  lemma RotateOnceMore(words: seq<string>, i: nat)
    requires i < |words|
    ensures Rotate(Rotate(words, i), 1) == Rotate(words, i + 1)
  {
    var r, k := Rotate(words, i), |words|;
    assert r[k - 1] == words[k - i - 1];
    assert r[k - 1..] == [words[k - i - 1]];
    assert r[..k - 1] == words[k - i..] + words[..k - i - 1];
  }

  lemma RotateBlankFree(words: seq<string>, i: nat)
    requires i <= |words| && BlankFree(words)
    ensures BlankFree(Rotate(words, i))
  {
  }

  lemma SplitOfRotation(words: seq<string>, i: nat)
    requires words != [] && i <= |words| && BlankFree(words)
    ensures Split(Join(Rotate(words, i))) == Rotate(words, i)
  {
    RotateBlankFree(words, i);
    SplitJoin(Rotate(words, i));
  }

  lemma SplitOfRotated(s: string)
    ensures Split(RotateWords(s)) == Rotate(Split(s), 1)
  {
    SplitBlankFree(s);
    SplitOfRotation(Split(s), 1);
  }

  /** `words` are those of `s`, rotated `i` times. */
  ghost predicate Turned(s: string, words: seq<string>, i: nat) {
    i <= |words| && Split(s) == Rotate(words, i)
  }

  lemma OneMore(before: string, words: seq<string>, i: nat)
    requires i < |words| && Turned(before, words, i)
    ensures Turned(RotateWords(before), words, i + 1)
  {
    SplitOfRotated(before);
    RotateOnceMore(words, i);
  }

  lemma TurnedText(s: string, words: seq<string>, i: nat)
    requires Turned(s, words, i)
    ensures s == Join(Rotate(words, i))
  {
    JoinSplit(s);
  }

  /** Each text is the one before it with its words rotated once. */
  ghost predicate Rotations(texts: seq<string>) {
    forall k :: 0 <= k < |texts| - 1 ==> texts[k + 1] == RotateWords(texts[k])
  }

  /** Rotating `i` times moves the last `i` words to the front. */
  lemma {:induction false} RotatedWords(texts: seq<string>, i: nat)
    requires Rotations(texts) && i < |texts| && i <= |Split(texts[0])|
    ensures Turned(texts[i], Split(texts[0]), i)
    ensures texts[i] == Join(Rotate(Split(texts[0]), i))
  {
    if i == 0 {
      RotateZero(Split(texts[0]));
    } else {
      RotatedWords(texts, i - 1);
      OneMore(texts[i - 1], Split(texts[0]), i - 1);
    }
    TurnedText(texts[i], Split(texts[0]), i);
  }

  lemma RotateZero(words: seq<string>)
    ensures Rotate(words, 0) == words
  {
  }

  /** A name of `k` words comes back after `k` rotations. */
  lemma FullTurn(texts: seq<string>)
    requires texts != [] && Rotations(texts) && |texts| > |Split(texts[0])|
    ensures texts[|Split(texts[0])|] == texts[0]
  {
    var words := Split(texts[0]);
    RotatedWords(texts, |words|);
    CameBack(texts[|words|], texts[0]);
  }

  lemma CameBack(last: string, first: string)
    requires Turned(last, Split(first), |Split(first)|)
    ensures last == first
  {
    JoinSplit(last);
    JoinSplit(first);
    assert Rotate(Split(first), |Split(first)|) == Split(first);
  }
}

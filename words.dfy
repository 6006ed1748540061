/**
 * `str.split()` without a separator and `" ".join`, as an independent
 * reference for what `sanitize_text` (src/modules/strings.py:4-10) computes.
 */
module WordSplit {
  import opened Strings

  /** The length of the longest prefix of `s` that holds no whitespace. */
  function WordLength(s: string): (k: nat)
    ensures k <= |s|
    ensures s != [] && !IsSpace(s[0]) ==> k >= 1
  {
    if s == [] || IsSpace(s[0]) then 0 else 1 + WordLength(s[1..])
  }

  /** A text without whitespace. */
  predicate NoSpace(w: string) {
    forall j :: 0 <= j < |w| ==> !IsSpace(w[j])
  }

  /** A word: a non-empty text without whitespace. */
  predicate IsWord(w: string) {
    w != [] && NoSpace(w)
  }

  /** The prefix `WordLength` measures holds no whitespace, and whitespace follows it. */
  lemma {:induction false} WordLengthBounds(s: string)
    ensures NoSpace(s[..WordLength(s)])
    ensures WordLength(s) < |s| ==> IsSpace(s[WordLength(s)])
    decreases |s|
  {
    if s != [] && !IsSpace(s[0]) {
      var t := s[1..];
      WordLengthBounds(t);
      var k := WordLength(s);
      assert k == 1 + WordLength(t);
      forall j | 0 <= j < k ensures !IsSpace(s[..k][j]) {
        if j > 0 { assert s[..k][j] == t[..k - 1][j - 1]; }
      }
      if k < |s| { assert s[k] == t[k - 1]; }
    }
  }

  /** `s.split()`: the maximal runs of non-whitespace characters of `s`, in order. */
  function Words(s: string): seq<string>
    decreases |s|
  {
    if s == [] then []
    else if IsSpace(s[0]) then Words(s[1..])
    else
      var k := WordLength(s);
      [s[..k]] + Words(s[k..])
  }

  /** Every element of `s.split()` is a word. */
  lemma {:induction false} WordsAreWords(s: string)
    ensures forall i :: 0 <= i < |Words(s)| ==> IsWord(Words(s)[i])
    decreases |s|
  {
    if s != [] && IsSpace(s[0]) {
      WordsAreWords(s[1..]);
    } else if s != [] {
      var k := WordLength(s);
      WordLengthBounds(s);
      WordsAreWords(s[k..]);
      var ws := Words(s);
      assert ws == [s[..k]] + Words(s[k..]);
      forall i | 0 <= i < |ws| ensures IsWord(ws[i]) {
        if i > 0 { assert ws[i] == Words(s[k..])[i - 1]; }
      }
    }
  }

  /** `" ".join(ws)`. */
  function JoinWords(ws: seq<string>): string {
    if ws == [] then [] else Join(ws, ' ')
  }

  /** A text made of whitespace only has no words. */
  lemma {:induction false} WordsOfSpaces(b: string)
    requires AllSpaces(b)
    ensures Words(b) == []
    decreases |b|
  {
    if b != [] {
      assert AllSpaces(b[1..]) by {
        forall i | 0 <= i < |b[1..]| ensures IsSpace(b[1..][i]) { assert b[1..][i] == b[i + 1]; }
      }
      WordsOfSpaces(b[1..]);
    }
  }

  /** Trailing whitespace does not lengthen the first word. */
  lemma {:induction false} WordLengthBeforeSpaces(a: string, b: string)
    requires AllSpaces(b)
    ensures WordLength(a + b) == WordLength(a)
    decreases |a|
  {
    if a == [] {
      assert a + b == b;
    } else if !IsSpace(a[0]) {
      assert (a + b)[1..] == a[1..] + b;
      WordLengthBeforeSpaces(a[1..], b);
    }
  }

  /** Trailing whitespace adds no word. */
  lemma {:induction false} WordsBeforeSpaces(a: string, b: string)
    requires AllSpaces(b)
    ensures Words(a + b) == Words(a)
    decreases |a|
  {
    if a == [] {
      assert a + b == b;
      WordsOfSpaces(b);
    } else if IsSpace(a[0]) {
      assert (a + b)[1..] == a[1..] + b;
      WordsBeforeSpaces(a[1..], b);
    } else {
      var k := WordLength(a);
      WordLengthBeforeSpaces(a, b);
      assert (a + b)[..k] == a[..k];
      assert (a + b)[k..] == a[k..] + b;
      WordsBeforeSpaces(a[k..], b);
    }
  }

  /** Leading whitespace adds no word. */
  lemma {:induction false} WordsAfterLStrip(s: string)
    ensures Words(LStrip(s)) == Words(s)
    decreases |s|
  {
    if s != [] && IsSpace(s[0]) {
      WordsAfterLStrip(s[1..]);
    }
  }

  /** A text is its `rstrip` followed by whitespace. */
  lemma RStripThenSpaces(l: string)
    ensures l == RStrip(l) + l[|RStrip(l)|..]
    ensures AllSpaces(l[|RStrip(l)|..])
  {
    var back := l[|RStrip(l)|..];
    RStripDropsSpaces(l);
    forall i | 0 <= i < |back| ensures IsSpace(back[i]) { assert back[i] == l[|RStrip(l)| + i]; }
  }

  /** Stripping keeps the words. */
  lemma WordsOfStrip(s: string)
    ensures Words(Strip(s)) == Words(s)
  {
    var l := LStrip(s);
    RStripThenSpaces(l);
    WordsBeforeSpaces(RStrip(l), l[|RStrip(l)|..]);
    WordsAfterLStrip(s);
  }

  /** Concatenation is associative. */
  lemma AppendAssoc(a: string, b: string, c: string)
    ensures a + (b + c) == a + b + c
  {
  }

  /** A text without whitespace stays so after its first character. */
  lemma NoSpaceTail(s: string, k: nat)
    requires 0 < k <= |s| && NoSpace(s[..k])
    ensures NoSpace(s[1..][..k - 1])
    ensures s[..k] == [s[0]] + s[1..][..k - 1]
  {
    var t := s[1..][..k - 1];
    forall j | 0 <= j < |t| ensures !IsSpace(t[j]) {
      assert t[j] == s[..k][j + 1];
    }
  }

  /** `Collapse` copies a leading word unchanged. */
  lemma {:induction false} CollapseAfterWord(s: string, k: nat)
    requires k <= |s| && NoSpace(s[..k])
    ensures Collapse(s) == s[..k] + Collapse(s[k..])
    decreases k
  {
    if k > 0 {
      var t := s[1..];
      assert !IsSpace(s[..k][0]);
      NoSpaceTail(s, k);
      CollapseAfterWord(t, k - 1);
      assert t[k - 1..] == s[k..];
      AppendAssoc([s[0]], t[..k - 1], Collapse(s[k..]));
    }
  }

  /** `Collapse` copies the first word of a text that starts with one. */
  lemma CollapseFirstWord(s: string)
    requires s != [] && !IsSpace(s[0])
    ensures Collapse(s) == s[..WordLength(s)] + Collapse(s[WordLength(s)..])
  {
    WordLengthBounds(s);
    CollapseAfterWord(s, WordLength(s));
  }

  /** Stripping the whitespace in front of a text that ends in a non-space leaves a shorter text that ends the same way. */
  lemma GapEnds(r: string)
    requires r != [] && IsSpace(r[0]) && !IsSpace(r[|r| - 1])
    ensures LStrip(r) != [] && |LStrip(r)| < |r|
    ensures !IsSpace(LStrip(r)[|LStrip(r)| - 1])
  {
    var u := LStrip(r);
    if u == [] {
      LStripDropsSpaces(r);
      assert false;
    }
    assert u[|u| - 1] == r[|r| - 1];
  }

  /** Joining a word in front of other words puts one space between them. */
  lemma JoinWordsCons(w: string, ws: seq<string>)
    requires ws != []
    ensures JoinWords([w] + ws) == w + [' '] + JoinWords(ws)
  {
    assert ([w] + ws)[1..] == ws;
  }

  /** A text that starts with a word splits into that word, then the words of the rest. */
  lemma WordsOfWordFirst(s: string)
    requires s != [] && !IsSpace(s[0])
    ensures Words(s) == [s[..WordLength(s)]] + Words(s[WordLength(s)..])
    ensures WordLength(s) < |s| ==> IsSpace(s[WordLength(s)])
  {
    WordLengthBounds(s);
  }

  /** The first word of a text that starts with one. */
  function FirstWord(s: string): string {
    s[..WordLength(s)]
  }

  /** What follows the first word and the whitespace after it. */
  function AfterFirstWord(s: string): string {
    LStrip(s[WordLength(s)..])
  }

  /** After the first word of a text without whitespace at either end, another such text follows, if anything. */
  lemma AfterFirstWordEnds(s: string)
    requires s != [] && !IsSpace(s[0]) && !IsSpace(s[|s| - 1]) && WordLength(s) < |s|
    ensures AfterFirstWord(s) != [] && |AfterFirstWord(s)| < |s|
    ensures !IsSpace(AfterFirstWord(s)[0]) && !IsSpace(AfterFirstWord(s)[|AfterFirstWord(s)| - 1])
  {
    WordsOfWordFirst(s);
    var r := s[WordLength(s)..];
    assert r[|r| - 1] == s[|s| - 1];
    GapEnds(r);
  }

  /** `Collapse` keeps the first word, then puts one space for the whitespace after it. */
  lemma CollapseStep(s: string)
    requires s != [] && !IsSpace(s[0]) && !IsSpace(s[|s| - 1]) && WordLength(s) < |s|
    ensures Collapse(s) == FirstWord(s) + ([' '] + Collapse(AfterFirstWord(s)))
  {
    CollapseFirstWord(s);
    WordsOfWordFirst(s);
    var r := s[WordLength(s)..];
    assert Collapse(r) == [' '] + Collapse(LStrip(r));
  }

  /** The words of a text are its first word, then the words after it. */
  lemma WordsStep(s: string)
    requires s != [] && !IsSpace(s[0]) && !IsSpace(s[|s| - 1]) && WordLength(s) < |s|
    ensures Words(s) == [FirstWord(s)] + Words(AfterFirstWord(s))
    ensures Words(AfterFirstWord(s)) != []
  {
    WordsOfWordFirst(s);
    var r := s[WordLength(s)..];
    assert r[|r| - 1] == s[|s| - 1];
    GapEnds(r);
    WordsAfterLStrip(r);
  }

  /** On a text without whitespace at either end, `Collapse` puts one space between consecutive words. */
  lemma {:induction false} CollapseJoinsWords(s: string)
    requires s == [] || (!IsSpace(s[0]) && !IsSpace(s[|s| - 1]))
    ensures Collapse(s) == JoinWords(Words(s))
    decreases |s|
  {
    if s != [] {
      var w := FirstWord(s);
      if WordLength(s) == |s| {
        CollapseFirstWord(s);
        WordsOfWordFirst(s);
        assert s[WordLength(s)..] == [];
        assert Collapse(s) == w + [];
        assert Words(s) == [w];
      } else {
        AfterFirstWordEnds(s);
        var u := AfterFirstWord(s);
        CollapseJoinsWords(u);
        CollapseStep(s);
        WordsStep(s);
        AppendAssoc(w, [' '], Collapse(u));
        JoinWordsCons(w, Words(u));
      }
    }
  }

  /**
   * `sanitize_text(s)` is `" ".join(s.split())`: the words of `s`, in order,
   * with exactly one space between each two consecutive ones.
   */
  lemma SanitizeTextJoinsWords(s: string)
    ensures SanitizeText(s) == JoinWords(Words(s))
  {
    StripEnds(s);
    CollapseJoinsWords(Strip(s));
    WordsOfStrip(s);
  }
}

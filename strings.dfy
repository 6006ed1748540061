/**
 * Text helpers of src/modules/strings.py and the Python string primitives the
 * core relies on: `str.isspace`/`\s`, `str.strip`, `re.sub(r'\s+', ' ', ...)`,
 * `str.split(sep)`, `str(int)` and `int(str)`.
 */
module Strings {
  import opened Results

  /**
   * The code-point ranges of the characters Python's `str.isspace()` accepts;
   * `re`'s `\s` on str patterns is the same class.
   */
  const SpaceRanges: seq<(char, char)> := [
    (' ', ' '), ('\t', '\r'), ('\U{1c}', '\U{1f}'), ('\U{85}', '\U{85}'), ('\U{a0}', '\U{a0}'),
    ('\U{1680}', '\U{1680}'), ('\U{2000}', '\U{200a}'), ('\U{2028}', '\U{2029}'), ('\U{202f}', '\U{202f}'),
    ('\U{205f}', '\U{205f}'), ('\U{3000}', '\U{3000}')]

  predicate InRanges(c: char, ranges: seq<(char, char)>) {
    ranges != [] && (ranges[0].0 <= c <= ranges[0].1 || InRanges(c, ranges[1..]))
  }

  predicate IsSpace(c: char) {
    InRanges(c, SpaceRanges)
  }

  predicate AllSpaces(s: string) {
    forall i :: 0 <= i < |s| ==> IsSpace(s[i])
  }

  /** `str.lstrip()`: the longest suffix of `s` that does not start with whitespace. */
  function LStrip(s: string): (r: string)
    ensures |r| <= |s| && r == s[|s| - |r|..]
    ensures r == [] || !IsSpace(r[0])
    ensures s != [] && IsSpace(s[0]) ==> |r| < |s|
  {
    if s != [] && IsSpace(s[0]) then LStrip(s[1..]) else s
  }

  /** What `lstrip` drops is whitespace. */
  lemma {:induction false} LStripDropsSpaces(s: string)
    ensures forall i :: 0 <= i < |s| - |LStrip(s)| ==> IsSpace(s[i])
  {
    if s != [] && IsSpace(s[0]) {
      var u := s[1..];
      LStripDropsSpaces(u);
      assert LStrip(s) == LStrip(u);
      forall i | 1 <= i < |s| - |LStrip(s)| ensures IsSpace(s[i]) {
        assert s[i] == u[i - 1];
      }
    }
  }

  /** `str.rstrip()`: the longest prefix of `s` that does not end with whitespace. */
  function RStrip(s: string): (r: string)
    ensures |r| <= |s| && r == s[..|r|]
    ensures r == [] || !IsSpace(r[|r| - 1])
  {
    if s != [] && IsSpace(s[|s| - 1]) then RStrip(s[..|s| - 1]) else s
  }

  /** What `rstrip` drops is whitespace. */
  lemma {:induction false} RStripDropsSpaces(s: string)
    ensures forall i :: |RStrip(s)| <= i < |s| ==> IsSpace(s[i])
  {
    if s != [] && IsSpace(s[|s| - 1]) {
      var t := s[..|s| - 1];
      RStripDropsSpaces(t);
      assert RStrip(s) == RStrip(t);
      forall i | |RStrip(s)| <= i < |s| - 1 ensures IsSpace(s[i]) {
        assert s[i] == t[i];
      }
    }
  }

  /** `str.strip()`. */
  function Strip(s: string): string {
    RStrip(LStrip(s))
  }

  /** `re.sub(r'\s+', ' ', s)`: every maximal run of whitespace becomes one space. */
  function Collapse(s: string): string
    decreases |s|
  {
    if s == [] then []
    else if IsSpace(s[0]) then [' '] + Collapse(LStrip(s))
    else [s[0]] + Collapse(s[1..])
  }

  /** `sanitize_text` (src/modules/strings.py:4-10): strip, then collapse whitespace runs. */
  function SanitizeText(s: string): string {
    Collapse(Strip(s))
  }

  /**
   * A sanitised text: no whitespace at either end, no whitespace other than
   * the plain space, and never two whitespace characters in a row.
   */
  predicate Clean(t: string) {
    && (t != [] ==> !IsSpace(t[0]) && !IsSpace(t[|t| - 1]))
    && (forall i :: 0 <= i < |t| && IsSpace(t[i]) ==> t[i] == ' ')
    && (forall i :: 0 <= i < |t| - 1 ==> !(IsSpace(t[i]) && IsSpace(t[i + 1])))
  }

  /** The non-whitespace characters of `s`, in order. */
  function NonSpaces(s: string): string {
    if s == [] then [] else (if IsSpace(s[0]) then [] else [s[0]]) + NonSpaces(s[1..])
  }

  lemma {:induction false} NonSpacesAppend(a: string, b: string)
    ensures NonSpaces(a + b) == NonSpaces(a) + NonSpaces(b)
    decreases |a|
  {
    if a == [] {
      assert a + b == b;
    } else {
      assert (a + b)[1..] == a[1..] + b;
      NonSpacesAppend(a[1..], b);
    }
  }

  lemma {:induction false} NonSpacesOfSpaces(s: string)
    ensures NonSpaces(s) == [] <==> AllSpaces(s)
    decreases |s|
  {
    if s != [] {
      NonSpacesOfSpaces(s[1..]);
      if AllSpaces(s) {
        assert AllSpaces(s[1..]) by {
          forall i | 0 <= i < |s[1..]| ensures IsSpace(s[1..][i]) { assert s[1..][i] == s[i + 1]; }
        }
      } else if IsSpace(s[0]) {
        var k :| 0 <= k < |s| && !IsSpace(s[k]);
        assert k > 0 && !IsSpace(s[1..][k - 1]);
      }
    }
  }

  /** `Collapse` keeps the input's emptiness and whether each end is whitespace. */
  lemma {:induction false} CollapseEnds(s: string)
    ensures (Collapse(s) == []) == (s == [])
    ensures s != [] ==> IsSpace(Collapse(s)[0]) == IsSpace(s[0])
    ensures s != [] ==> IsSpace(Collapse(s)[|Collapse(s)| - 1]) == IsSpace(s[|s| - 1])
    decreases |s|
  {
    if s != [] && IsSpace(s[0]) {
      var t := LStrip(s);
      CollapseEnds(t);
      assert Collapse(s) == [' '] + Collapse(t);
      if t != [] {
        assert t[|t| - 1] == s[|s| - 1];
      } else {
        LStripDropsSpaces(s);
      }
    } else if s != [] {
      var t := s[1..];
      CollapseEnds(t);
      assert Collapse(s) == [s[0]] + Collapse(t);
      if t != [] {
        assert t[|t| - 1] == s[|s| - 1];
      }
    }
  }

  /** Every whitespace character `Collapse` outputs is a plain space, and none follows another. */
  lemma {:induction false} CollapseSpacing(s: string)
    ensures forall i :: 0 <= i < |Collapse(s)| && IsSpace(Collapse(s)[i]) ==> Collapse(s)[i] == ' '
    ensures forall i :: 0 <= i < |Collapse(s)| - 1 ==> !(IsSpace(Collapse(s)[i]) && IsSpace(Collapse(s)[i + 1]))
    decreases |s|
  {
    if s != [] {
      var head := if IsSpace(s[0]) then ' ' else s[0];
      var t := if IsSpace(s[0]) then LStrip(s) else s[1..];
      CollapseSpacing(t);
      CollapseEnds(t);
      var c := Collapse(t);
      var r := Collapse(s);
      assert r == [head] + c;
      assert IsSpace(head) ==> c == [] || !IsSpace(c[0]);
      forall i | 0 <= i < |r| && IsSpace(r[i]) ensures r[i] == ' ' {
        if i > 0 { assert r[i] == c[i - 1]; }
      }
      forall i | 0 <= i < |r| - 1 ensures !(IsSpace(r[i]) && IsSpace(r[i + 1])) {
        if i > 0 { assert r[i] == c[i - 1] && r[i + 1] == c[i]; }
      }
    }
  }

  /** `Collapse` keeps the non-whitespace characters in order and never lengthens its input. */
  lemma {:induction false} CollapsePreserves(s: string)
    ensures NonSpaces(Collapse(s)) == NonSpaces(s)
    ensures |Collapse(s)| <= |s|
    decreases |s|
  {
    if s == [] {
    } else if IsSpace(s[0]) {
      var l := LStrip(s);
      CollapsePreserves(l);
      var dropped := s[..|s| - |l|];
      assert s == dropped + l;
      assert AllSpaces(dropped) by {
        LStripDropsSpaces(s);
      }
      NonSpacesOfSpaces(dropped);
      NonSpacesAppend(dropped, l);
      NonSpacesAppend([' '], Collapse(l));
    } else {
      CollapsePreserves(s[1..]);
      NonSpacesAppend([s[0]], Collapse(s[1..]));
    }
  }

  /** Stripping drops whitespace only. */
  lemma StripKeepsNonSpaces(s: string)
    ensures NonSpaces(Strip(s)) == NonSpaces(s)
    ensures |Strip(s)| <= |s|
  {
    LStripKeepsNonSpaces(s);
    RStripKeepsNonSpaces(LStrip(s));
  }

  /** `lstrip` drops only whitespace. */
  lemma LStripKeepsNonSpaces(s: string)
    ensures NonSpaces(LStrip(s)) == NonSpaces(s)
  {
    var l := LStrip(s);
    var front := s[..|s| - |l|];
    assert s == front + l;
    assert AllSpaces(front) by {
      LStripDropsSpaces(s);
    }
    NonSpacesOfSpaces(front);
    NonSpacesAppend(front, l);
  }

  /** `rstrip` drops only whitespace. */
  lemma RStripKeepsNonSpaces(l: string)
    ensures NonSpaces(RStrip(l)) == NonSpaces(l)
  {
    var r := RStrip(l);
    var back := l[|r|..];
    assert l == r + back;
    assert AllSpaces(back) by {
      RStripDropsSpaces(l);
      forall i | 0 <= i < |back| ensures IsSpace(back[i]) { assert back[i] == l[|r| + i]; }
    }
    NonSpacesOfSpaces(back);
    NonSpacesAppend(r, back);
  }

  /** Stripping leaves no whitespace at either end. */
  lemma StripEnds(s: string)
    ensures Strip(s) == [] || (!IsSpace(Strip(s)[0]) && !IsSpace(Strip(s)[|Strip(s)| - 1]))
  {
    var l := LStrip(s);
    var r := RStrip(l);
    if r != [] { assert r[0] == l[0]; }
  }

  /** The output of `sanitize_text` is always a clean text. */
  lemma SanitizeTextIsClean(s: string)
    ensures Clean(SanitizeText(s))
  {
    StripEnds(s);
    CollapseEnds(Strip(s));
    CollapseSpacing(Strip(s));
  }

  /** `Collapse` leaves a text with only single plain spaces unchanged. */
  lemma {:induction false} CollapseSingleSpaces(t: string)
    requires forall i :: 0 <= i < |t| && IsSpace(t[i]) ==> t[i] == ' '
    requires forall i :: 0 <= i < |t| - 1 ==> !(IsSpace(t[i]) && IsSpace(t[i + 1]))
    ensures Collapse(t) == t
    decreases |t|
  {
    if t != [] {
      var u := t[1..];
      assert forall i :: 0 <= i < |u| && IsSpace(u[i]) ==> u[i] == ' ' by {
        forall i | 0 <= i < |u| && IsSpace(u[i]) ensures u[i] == ' ' { assert u[i] == t[i + 1]; }
      }
      assert forall i :: 0 <= i < |u| - 1 ==> !(IsSpace(u[i]) && IsSpace(u[i + 1])) by {
        forall i | 0 <= i < |u| - 1 ensures !(IsSpace(u[i]) && IsSpace(u[i + 1])) {
          assert u[i] == t[i + 1] && u[i + 1] == t[i + 2];
        }
      }
      CollapseSingleSpaces(u);
      assert t == [t[0]] + u;
      if IsSpace(t[0]) {
        assert u == [] || !IsSpace(u[0]) by { if u != [] { assert u[0] == t[1]; } }
        assert LStrip(t) == LStrip(u) == u;
        assert Collapse(t) == [' '] + Collapse(u);
      } else {
        assert Collapse(t) == [t[0]] + Collapse(u);
      }
    }
  }

  /** A clean text is a fixed point of `sanitize_text`. */
  lemma CleanIsFixed(t: string)
    requires Clean(t)
    ensures SanitizeText(t) == t
  {
    assert LStrip(t) == t;
    assert RStrip(t) == t;
    CollapseSingleSpaces(t);
  }

  /** `sanitize_text` is idempotent. */
  lemma SanitizeTextIdempotent(s: string)
    ensures SanitizeText(SanitizeText(s)) == SanitizeText(s)
  {
    SanitizeTextIsClean(s);
    CleanIsFixed(SanitizeText(s));
  }

  /** `sanitize_text` keeps every non-whitespace character, in order, and never lengthens its input. */
  lemma SanitizeTextPreserves(s: string)
    ensures NonSpaces(SanitizeText(s)) == NonSpaces(s)
    ensures |SanitizeText(s)| <= |s|
  {
    StripKeepsNonSpaces(s);
    CollapsePreserves(Strip(s));
  }

  /** `sanitize_text` yields "" exactly for the empty and the all-whitespace inputs. */
  lemma SanitizeTextEmpty(s: string)
    ensures SanitizeText(s) == [] <==> AllSpaces(s)
  {
    SanitizeTextPreserves(s);
    NonSpacesOfSpaces(s);
    SanitizeTextIsClean(s);
    NonSpacesOfSpaces(SanitizeText(s));
  }

  // ---------------------------------------------------------------- str.split

  /** `s.split(sep)` for a one-character separator. */
  function Split(s: string, sep: char): (parts: seq<string>)
    ensures |parts| >= 1
  {
    if s == [] then [[]]
    else
      var rest := Split(s[1..], sep);
      if s[0] == sep then [[]] + rest
      else [[s[0]] + rest[0]] + rest[1..]
  }

  /** `sep.join(parts)`. */
  function Join(parts: seq<string>, sep: char): string
    requires |parts| >= 1
  {
    if |parts| == 1 then parts[0] else parts[0] + [sep] + Join(parts[1..], sep)
  }

  predicate Free(s: string, sep: char) {
    forall j :: 0 <= j < |s| ==> s[j] != sep
  }

  /** No part of a split holds the separator. */
  lemma {:induction false} SplitPartsFree(s: string, sep: char)
    ensures forall i :: 0 <= i < |Split(s, sep)| ==> Free(Split(s, sep)[i], sep)
    decreases |s|
  {
    if s != [] {
      SplitPartsFree(s[1..], sep);
      var rest, parts := Split(s[1..], sep), Split(s, sep);
      forall i | 0 <= i < |parts| ensures Free(parts[i], sep) {
        if s[0] == sep {
          if i > 0 { assert parts[i] == rest[i - 1]; }
        } else if i == 0 {
          assert Free(rest[0], sep);
          forall j | 0 <= j < |parts[0]| ensures parts[0][j] != sep {
            if j > 0 { assert parts[0][j] == rest[0][j - 1]; }
          }
        } else {
          assert parts[i] == rest[i];
        }
      }
    }
  }

  /** Joining the parts of a split gives back the original text. */
  lemma {:induction false} JoinOfSplit(s: string, sep: char)
    ensures Join(Split(s, sep), sep) == s
    decreases |s|
  {
    if s != [] {
      JoinOfSplit(s[1..], sep);
      var rest := Split(s[1..], sep);
      if s[0] != sep {
        if |rest| > 1 {
          assert Join([[s[0]] + rest[0]] + rest[1..], sep)
              == [s[0]] + rest[0] + [sep] + Join(rest[1..], sep);
        }
      }
    }
  }

  /** Splitting a join of separator-free parts gives back the parts. */
  lemma {:induction false} SplitOfJoin(parts: seq<string>, sep: char)
    requires |parts| >= 1
    requires forall i :: 0 <= i < |parts| ==> Free(parts[i], sep)
    ensures Split(Join(parts, sep), sep) == parts
    decreases |parts|, |parts[0]|
  {
    var head := parts[0];
    if head == [] {
      if |parts| > 1 {
        SplitOfJoin(parts[1..], sep);
        assert Join(parts, sep) == [sep] + Join(parts[1..], sep);
        assert ([sep] + Join(parts[1..], sep))[1..] == Join(parts[1..], sep);
      }
    } else {
      var shorter := [head[1..]] + parts[1..];
      ShorterFree(parts, sep);
      SplitOfJoin(shorter, sep);
      JoinDropFirst(parts, sep);
      var j := Join(parts, sep);
      assert j[0] == head[0] && head[0] != sep;
      assert Split(j, sep) == [[head[0]] + head[1..]] + parts[1..];
      assert [head[0]] + head[1..] == head;
    }
  }

  /** Dropping the first character of the first part keeps every part free of the separator. */
  lemma ShorterFree(parts: seq<string>, sep: char)
    requires |parts| >= 1 && parts[0] != []
    requires forall i :: 0 <= i < |parts| ==> Free(parts[i], sep)
    ensures forall i :: 0 <= i < |[parts[0][1..]] + parts[1..]| ==> Free(([parts[0][1..]] + parts[1..])[i], sep)
  {
    var shorter := [parts[0][1..]] + parts[1..];
    forall i | 0 <= i < |shorter| ensures Free(shorter[i], sep) {
      if i == 0 { assert Free(parts[0], sep); } else { assert shorter[i] == parts[i]; }
    }
  }

  /** A join whose first part is not empty starts with that part's first character. */
  lemma JoinDropFirst(parts: seq<string>, sep: char)
    requires |parts| >= 1 && parts[0] != []
    ensures |Join(parts, sep)| >= 1 && Join(parts, sep)[0] == parts[0][0]
    ensures Join(parts, sep)[1..] == Join([parts[0][1..]] + parts[1..], sep)
  {
    var head, shorter := parts[0], [parts[0][1..]] + parts[1..];
    var j := Join(parts, sep);
    if |parts| == 1 {
      assert j[1..] == Join(shorter, sep);
    } else {
      assert j == [head[0]] + (head[1..] + [sep] + Join(parts[1..], sep));
      assert shorter[1..] == parts[1..];
      assert j[1..] == Join(shorter, sep);
    }
  }

  lemma {:induction false} JoinAppend(p: seq<string>, q: seq<string>, sep: char)
    requires |p| >= 1 && |q| >= 1
    ensures Join(p + q, sep) == Join(p, sep) + [sep] + Join(q, sep)
    decreases |p|
  {
    if |p| > 1 {
      JoinAppend(p[1..], q, sep);
      assert (p + q)[1..] == p[1..] + q;
    }
  }

  /** A separator splits the text into the parts before it followed by the parts after it. */
  lemma SplitAround(a: string, b: string, sep: char)
    ensures Split(a + [sep] + b, sep) == Split(a, sep) + Split(b, sep)
  {
    var p, q := Split(a, sep), Split(b, sep);
    JoinOfSplit(a, sep);
    JoinOfSplit(b, sep);
    JoinAppend(p, q, sep);
    SplitPartsFree(a, sep);
    SplitPartsFree(b, sep);
    forall i | 0 <= i < |p + q| ensures Free((p + q)[i], sep) {
      if i < |p| { assert (p + q)[i] == p[i]; } else { assert (p + q)[i] == q[i - |p|]; }
    }
    SplitOfJoin(p + q, sep);
  }

  /** A text without the separator splits into itself. */
  lemma SplitOfFree(s: string, sep: char)
    requires Free(s, sep)
    ensures Split(s, sep) == [s]
    ensures LastPart(s, sep) == s
  {
    SplitOfJoin([s], sep);
  }

  /** Two texts without the separator, joined by it, split back into the two. */
  lemma SplitTwoParts(a: string, b: string, sep: char)
    requires Free(a, sep) && Free(b, sep)
    ensures Split(a + [sep] + b, sep) == [a, b]
  {
    SplitAround(a, b, sep);
    SplitOfFree(a, sep);
    SplitOfFree(b, sep);
  }

  /** `s.split(sep)[-1]`: the text after the last separator. */
  function LastPart(s: string, sep: char): string {
    var parts := Split(s, sep); parts[|parts| - 1]
  }

  /** Only what follows the last separator decides the last part. */
  lemma LastPartAfterSeparator(a: string, b: string, sep: char)
    ensures LastPart(a + [sep] + b, sep) == LastPart(b, sep)
  {
    SplitAround(a, b, sep);
  }

  /** `s.split(sep)[k]`, or IndexError when there are not that many parts. */
  function PartAt(s: string, sep: char, k: nat): (r: Result<string>)
    ensures r.Ok? <==> k < |Split(s, sep)|
  {
    var parts := Split(s, sep);
    if k < |parts| then Ok(parts[k]) else Err(IndexError)
  }

  // --------------------------------------------------- decimal int rendering

  predicate IsDigit(c: char) { '0' <= c <= '9' }

  predicate AllDigits(s: string) { forall i :: 0 <= i < |s| ==> IsDigit(s[i]) }

  function DigitChar(d: nat): (c: char)
    requires d < 10
    ensures IsDigit(c)
  {
    (48 + d) as char
  }

  function DigitValue(c: char): (d: nat)
    requires IsDigit(c)
    ensures d < 10
  {
    (c as int) - 48
  }

  /** `str(n)` for a non-negative integer. */
  function NatToString(n: nat): (s: string)
    ensures |s| >= 1 && AllDigits(s)
  {
    if n < 10 then [DigitChar(n)] else NatToString(n / 10) + [DigitChar(n % 10)]
  }

  /** `str(i)`. */
  function IntToString(i: int): (s: string)
    ensures |s| >= 1
  {
    if i < 0 then "-" + NatToString(-i) else NatToString(i)
  }

  /** Value of a non-empty run of decimal digits. */
  function DigitsValue(s: string): nat
    requires |s| >= 1 && AllDigits(s)
  {
    if |s| == 1 then DigitValue(s[0])
    else 10 * DigitsValue(s[..|s| - 1]) + DigitValue(s[|s| - 1])
  }

  /** `int(s)` on an optionally signed run of ASCII digits; None where Python raises ValueError. */
  function ParseInt(s: string): Option<int> {
    if |s| >= 2 && s[0] == '-' && AllDigits(s[1..]) then
      var magnitude: int := DigitsValue(s[1..]);
      Some(-magnitude)
    else if |s| >= 1 && AllDigits(s) then Some(DigitsValue(s))
    else None
  }

  lemma {:induction false} DigitsOfNat(n: nat)
    ensures DigitsValue(NatToString(n)) == n
  {
    if n >= 10 {
      DigitsOfNat(n / 10);
      var s := NatToString(n);
      assert s[..|s| - 1] == NatToString(n / 10);
    }
  }

  /** `int(str(i)) == i`. */
  lemma ParseIntOfIntToString(i: int)
    ensures ParseInt(IntToString(i)) == Some(i)
  {
    if i < 0 {
      var n := NatToString(-i);
      DigitsOfNat(-i);
      assert IntToString(i) == "-" + n;
      assert ("-" + n)[1..] == n;
    } else {
      var n := NatToString(i);
      DigitsOfNat(i);
      assert IntToString(i) == n;
      assert n[0] != '-' by { assert IsDigit(n[0]); }
    }
  }

  /** A rendered integer holds nothing but a sign and digits. */
  lemma IntToStringFree(i: int, sep: char)
    requires sep != '-' && !IsDigit(sep)
    ensures Free(IntToString(i), sep)
  {
    var s := IntToString(i);
    if i < 0 {
      var n := NatToString(-i);
      assert s == "-" + n;
      forall j | 0 <= j < |s| ensures s[j] != sep {
        if j > 0 { assert s[j] == n[j - 1] && IsDigit(n[j - 1]); }
      }
    } else {
      assert forall j :: 0 <= j < |s| ==> IsDigit(s[j]);
    }
  }

  /** Different integers render differently. */
  lemma IntToStringInjective(i: int, j: int)
    requires IntToString(i) == IntToString(j)
    ensures i == j
  {
    ParseIntOfIntToString(i);
    ParseIntOfIntToString(j);
  }

  /** Python's `f'{x}'` of an optional integer: `None` renders as "None". */
  function OptionalIntToString(x: Option<int>): string {
    match x
    case None => "None"
    case Some(i) => IntToString(i)
  }
}

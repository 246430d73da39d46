/**
 * The three JavaScript string built-ins the core relies on: `includes`,
 * `split` on a one-character separator, and `trim`.
 */
module Strings {

  /** The separator a learned rule puts between source and target field (U+2192). */
  const Arrow: char := '\U{2192}'

  /** `pat` occurs in `text` starting at index `i`. */
  ghost predicate OccursAt(text: string, pat: string, i: nat)
  {
    i + |pat| <= |text| && text[i..i + |pat|] == pat
  }

  /** `text.includes(pat)`: scan for a position where `pat` is a prefix. */
  function Includes(text: string, pat: string): bool
    decreases |text|
  {
    if pat <= text then true
    else if text == [] then false
    else Includes(text[1..], pat)
  }

  /** Whatever `Includes` accepts occurs somewhere in the text. */
  lemma {:induction false} IncludesSound(text: string, pat: string) returns (i: nat)
    requires Includes(text, pat)
    ensures OccursAt(text, pat, i)
    decreases |text|
  {
    if pat <= text {
      i := 0;
    } else {
      var j := IncludesSound(text[1..], pat);
      assert text[1..][j..j + |pat|] == text[j + 1..j + 1 + |pat|];
      i := j + 1;
    }
  }

  /** Every occurrence is found by `Includes`. */
  lemma {:induction false} IncludesComplete(text: string, pat: string, i: nat)
    requires OccursAt(text, pat, i)
    ensures Includes(text, pat)
    decreases i
  {
    if !(pat <= text) {
      assert i != 0 by {
        assert text[..|pat|] == text[0..0 + |pat|];
      }
      assert text[1..][i - 1..i - 1 + |pat|] == text[i..i + |pat|];
      IncludesComplete(text[1..], pat, i - 1);
    }
  }

  /** `Includes` holds exactly when the pattern occurs somewhere in the text. */
  lemma IncludesIffOccurs(text: string, pat: string)
    ensures Includes(text, pat) <==> exists i: nat :: OccursAt(text, pat, i)
  {
    if Includes(text, pat) {
      var i := IncludesSound(text, pat);
    }
    forall i: nat | OccursAt(text, pat, i) ensures Includes(text, pat) {
      IncludesComplete(text, pat, i);
    }
  }

  /** `s.split(sep)`: the maximal pieces of `s` between separators, in order. */
  function Split(s: string, sep: char): (parts: seq<string>)
    ensures |parts| >= 1
    ensures forall i :: 0 <= i < |parts| ==> sep !in parts[i]
    ensures sep in s <==> |parts| >= 2
    decreases |s|
  {
    if s == [] then [[]]
    else
      var rest := Split(s[1..], sep);
      if s[0] == sep then [[]] + rest
      else [[s[0]] + rest[0]] + rest[1..]
  }

  /** `parts.join(sep)`. */
  function Join(parts: seq<string>, sep: char): string
    requires |parts| >= 1
  {
    if |parts| == 1 then parts[0] else parts[0] + [sep] + Join(parts[1..], sep)
  }

  /** Splitting loses nothing: joining the pieces gives back the input. */
  lemma {:induction false} JoinSplit(s: string, sep: char)
    ensures Join(Split(s, sep), sep) == s
    decreases |s|
  {
    if s != [] {
      var rest := Split(s[1..], sep);
      JoinSplit(s[1..], sep);
      if s[0] == sep {
        assert Split(s, sep)[1..] == rest;
      } else if |rest| > 1 {
        assert Split(s, sep)[1..] == rest[1..];
      }
    }
  }

  /** The first piece is exactly the text before the first separator. */
  lemma SplitHead(s: string, sep: char)
    requires sep in s
    ensures var parts := Split(s, sep);
            s == parts[0] + [sep] + Join(parts[1..], sep)
  {
    JoinSplit(s, sep);
  }

  /** The characters `String.prototype.trim` removes: WhiteSpace and LineTerminator. */
  predicate IsWhitespace(c: char)
  {
    || c == '\t' || c == '\n' || c == '\U{B}' || c == '\U{C}' || c == '\r'
    || c == ' ' || c == '\U{A0}' || c == '\U{1680}'
    || ('\U{2000}' <= c <= '\U{200A}')
    || c == '\U{2028}' || c == '\U{2029}' || c == '\U{202F}' || c == '\U{205F}'
    || c == '\U{3000}' || c == '\U{FEFF}'
  }

  /** `s` with its leading whitespace removed. */
  function TrimStart(s: string): (r: string)
    ensures |r| <= |s| && r == s[|s| - |r|..]
    ensures r == [] || !IsWhitespace(r[0])
    ensures forall i :: 0 <= i < |s| - |r| ==> IsWhitespace(s[i])
    decreases |s|
  {
    if s != [] && IsWhitespace(s[0]) then TrimStart(s[1..]) else s
  }

  /** `s` with its trailing whitespace removed. */
  function TrimEnd(s: string): (r: string)
    ensures |r| <= |s| && r == s[..|r|]
    ensures r == [] || !IsWhitespace(r[|r| - 1])
    ensures forall i :: |r| <= i < |s| ==> IsWhitespace(s[i])
    decreases |s|
  {
    if s != [] && IsWhitespace(s[|s| - 1]) then TrimEnd(s[..|s| - 1]) else s
  }

  /** `r` is the slice of `s` at `lo` once only whitespace lies outside it. */
  ghost predicate StrippedSlice(s: string, r: string, lo: nat)
  {
    && lo + |r| <= |s| && r == s[lo..lo + |r|]
    && (forall i :: 0 <= i < lo ==> IsWhitespace(s[i]))
    && (forall i :: lo + |r| <= i < |s| ==> IsWhitespace(s[i]))
  }

  /** Stripping the end and then the start leaves a slice with only whitespace around it. */
  lemma TrimBothEnds(s: string)
    ensures var t := TrimEnd(s);
            StrippedSlice(s, TrimStart(t), |t| - |TrimStart(t)|)
  {
    var t := TrimEnd(s);
    var r := TrimStart(t);
    var lo := |t| - |r|;
    assert r == t[lo..] && t == s[..|t|];
    assert r == s[lo..lo + |r|];
    forall i | 0 <= i < lo ensures IsWhitespace(s[i]) {
      assert s[i] == t[i];
    }
  }

  /**
   * `s.trim()`: the slice of `s` left once whitespace is stripped from both
   * ends; everything stripped is whitespace and the result starts and ends with
   * a non-whitespace character (or is empty).
   */
  function Trim(s: string): (r: string)
    ensures r == [] || (!IsWhitespace(r[0]) && !IsWhitespace(r[|r| - 1]))
    ensures exists lo: nat :: StrippedSlice(s, r, lo)
  {
    TrimBothEnds(s);
    TrimStart(TrimEnd(s))
  }
}

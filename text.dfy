/**
 * The string operations the genre resolver relies on: .NET's
 * `StringComparer.OrdinalIgnoreCase` (as an ASCII case fold),
 * `string.IsNullOrEmpty` and `string.Trim`.
 */
module Text {
  import opened Wrappers

  predicate IsAsciiUpper(c: char) {
    'A' <= c <= 'Z'
  }

  /** Case fold of one character; only ASCII letters have a case here. */
  function FoldChar(c: char): (r: char)
    ensures !IsAsciiUpper(r)
  {
    if IsAsciiUpper(c) then (c as int + 32) as char else c
  }

  /** The key `OrdinalIgnoreCase` compares: every character folded. */
  function Fold(s: string): (r: string)
    ensures |r| == |s|
    ensures forall i | 0 <= i < |s| :: r[i] == FoldChar(s[i])
  {
    if s == [] then [] else [FoldChar(s[0])] + Fold(s[1..])
  }

  /** No ASCII upper-case letter: the form in which the static tables are written. */
  predicate IsLower(s: string) {
    forall i | 0 <= i < |s| :: !IsAsciiUpper(s[i])
  }

  /** A character that is not an ASCII upper-case letter. */
  type LowerChar = c: char | !IsAsciiUpper(c) witness 'a'

  /** A string the case fold leaves as it is. */
  type Lower = seq<LowerChar>

  lemma FoldLower(s: string)
    requires IsLower(s)
    ensures Fold(s) == s
  {
  }

  /** `StringComparer.OrdinalIgnoreCase.Equals` on two non-null strings. */
  predicate EqualsIgnoreCase(a: string, b: string) {
    Fold(a) == Fold(b)
  }

  /** Two strings are equal ignoring case exactly when they agree character by character after folding. */
  lemma EqualsIgnoreCaseCharwise(a: string, b: string)
    ensures EqualsIgnoreCase(a, b) <==>
      |a| == |b| && forall i | 0 <= i < |a| :: FoldChar(a[i]) == FoldChar(b[i])
  {
    if |a| == |b| && forall i | 0 <= i < |a| :: FoldChar(a[i]) == FoldChar(b[i]) {
      assert Fold(a) == Fold(b);
    }
  }

  lemma EqualsIgnoreCaseIsEquivalence(a: string, b: string, c: string)
    ensures EqualsIgnoreCase(a, a)
    ensures EqualsIgnoreCase(a, b) ==> EqualsIgnoreCase(b, a)
    ensures EqualsIgnoreCase(a, b) && EqualsIgnoreCase(b, c) ==> EqualsIgnoreCase(a, c)
  {
  }

  /**
   * `StringComparer.OrdinalIgnoreCase.GetHashCode`: some hash of the folded
   * string (the hash itself is a parameter).
   */
  function IgnoreCaseHash(hash: string -> bv32, s: string): bv32 {
    hash(Fold(s))
  }

  /** `string.IsNullOrEmpty`. */
  predicate IsNullOrEmpty(s: Option<string>) {
    s.None? || s.value == ""
  }

  /** `char.IsWhiteSpace`: the Unicode space separators, line and paragraph separators, and U+0009..U+000D, U+0085. */
  predicate IsWhiteSpace(c: char) {
    || c == ' '
    || '\t' <= c <= '\r'
    || c == '\U{85}'
    || c == '\U{A0}'
    || c == '\U{1680}'
    || '\U{2000}' <= c <= '\U{200A}'
    || c == '\U{2028}'
    || c == '\U{2029}'
    || c == '\U{202F}'
    || c == '\U{205F}'
    || c == '\U{3000}'
  }

  /** The first index at or after `i` whose character is not white space, or `|s|`. */
  function SkipStart(s: string, i: nat): (k: nat)
    requires i <= |s|
    ensures i <= k <= |s|
    ensures forall j | i <= j < k :: IsWhiteSpace(s[j])
    ensures k == |s| || !IsWhiteSpace(s[k])
    decreases |s| - i
  {
    if i < |s| && IsWhiteSpace(s[i]) then SkipStart(s, i + 1) else i
  }

  /** The index just past the last character of `s[lo..hi]` that is not white space, or `lo`. */
  function SkipEnd(s: string, lo: nat, hi: nat): (k: nat)
    requires lo <= hi <= |s|
    ensures lo <= k <= hi
    ensures forall j | k <= j < hi :: IsWhiteSpace(s[j])
    ensures k == lo || !IsWhiteSpace(s[k - 1])
    decreases hi
  {
    if lo < hi && IsWhiteSpace(s[hi - 1]) then SkipEnd(s, lo, hi - 1) else hi
  }

  /** The scan from the start stops at the first index that is not white space. */
  lemma SkipStartUnique(s: string, i: nat, m: nat)
    requires i <= m <= |s|
    requires forall j | i <= j < m :: IsWhiteSpace(s[j])
    requires m == |s| || !IsWhiteSpace(s[m])
    ensures SkipStart(s, i) == m
  {
  }

  /** The scan from the end stops just past the last index that is not white space. */
  lemma SkipEndUnique(s: string, lo: nat, hi: nat, m: nat)
    requires lo <= m <= hi <= |s|
    requires forall j | m <= j < hi :: IsWhiteSpace(s[j])
    requires m == lo || !IsWhiteSpace(s[m - 1])
    ensures SkipEnd(s, lo, hi) == m
  {
  }

  /**
   * `string.Trim()`: the middle slice of `s` that neither starts nor ends
   * with white space; everything cut off is white space.
   */
  function Trim(s: string): (r: string)
    ensures var lo := SkipStart(s, 0);
      && lo + |r| <= |s|
      && r == s[lo..lo + |r|]
      && (forall i | 0 <= i < lo :: IsWhiteSpace(s[i]))
      && (forall i | lo + |r| <= i < |s| :: IsWhiteSpace(s[i]))
    ensures r == [] || (!IsWhiteSpace(r[0]) && !IsWhiteSpace(r[|r| - 1]))
  {
    var lo := SkipStart(s, 0);
    s[lo..SkipEnd(s, lo, |s|)]
  }

  /** Trimming twice is trimming once. */
  lemma TrimIdempotent(s: string)
    ensures Trim(Trim(s)) == Trim(s)
  {
    var r := Trim(s);
    SkipStartUnique(r, 0, 0);
    SkipEndUnique(r, 0, |r|, |r|);
    assert r[0..|r|] == r;
  }

  /** Strings that differ only in surrounding white space trim to the same string. */
  lemma TrimIgnoresSurroundingWhiteSpace(s: string, pre: string, post: string)
    requires forall i | 0 <= i < |pre| :: IsWhiteSpace(pre[i])
    requires forall i | 0 <= i < |post| :: IsWhiteSpace(post[i])
    ensures Trim(pre + s + post) == Trim(s)
  {
    var a := SkipStart(s, 0);
    StartSkipsPrefix(s, pre, post);
    if a < |s| {
      EndSkipsSuffix(s, pre, post, a);
      MiddleSlice(s, pre, post, a, SkipEnd(s, a, |s|));
    }
  }

  /** The slice of `pre + s + post` over the positions of `s[a..b]` is `s[a..b]`. */
  lemma MiddleSlice(s: string, pre: string, post: string, a: nat, b: nat)
    requires a <= b <= |s|
    ensures (pre + s + post)[|pre| + a..|pre| + b] == s[a..b]
  {
    var x := pre + s + post;
    assert forall j | 0 <= j < b - a :: x[|pre| + a..|pre| + b][j] == s[a..b][j];
  }

  /** The scan from the start of `pre + s + post` passes over `pre`, and over `post` too when `s` is blank. */
  lemma StartSkipsPrefix(s: string, pre: string, post: string)
    requires forall i | 0 <= i < |pre| :: IsWhiteSpace(pre[i])
    requires forall i | 0 <= i < |post| :: IsWhiteSpace(post[i])
    ensures var a := SkipStart(s, 0);
      SkipStart(pre + s + post, 0) == if a == |s| then |pre + s + post| else |pre| + a
  {
    var x := pre + s + post;
    var a := SkipStart(s, 0);
    var m := if a == |s| then |x| else |pre| + a;
    forall j | 0 <= j < m
      ensures IsWhiteSpace(x[j])
    {
      if j < |pre| {
        assert x[j] == pre[j];
      } else if j < |pre| + |s| {
        assert x[j] == s[j - |pre|];
      } else {
        assert x[j] == post[j - |pre| - |s|];
      }
    }
    if a < |s| {
      assert x[m] == s[a];
    }
    SkipStartUnique(x, 0, m);
  }

  /** The scan from the end of `pre + s + post`, once past a non-blank start, passes over `post`. */
  lemma EndSkipsSuffix(s: string, pre: string, post: string, a: nat)
    requires forall i | 0 <= i < |post| :: IsWhiteSpace(post[i])
    requires a < |s| && !IsWhiteSpace(s[a])
    ensures SkipEnd(pre + s + post, |pre| + a, |pre + s + post|) == |pre| + SkipEnd(s, a, |s|)
  {
    var x := pre + s + post;
    var b := SkipEnd(s, a, |s|);
    var m := |pre| + b;
    forall j | m <= j < |x|
      ensures IsWhiteSpace(x[j])
    {
      if j < |pre| + |s| {
        assert x[j] == s[j - |pre|];
      } else {
        assert x[j] == post[j - |pre| - |s|];
      }
    }
    if m != |pre| + a {
      assert x[m - 1] == s[b - 1];
    }
    SkipEndUnique(x, |pre| + a, |x|, m);
  }
}

/** JavaScript's `String.prototype.trim`: strip, from both ends of a string,
    every character that ECMAScript counts as WhiteSpace or LineTerminator. */
module JsString {

  /** ECMAScript WhiteSpace (TAB, VT, FF, ZWNBSP and the Unicode Zs category)
      and LineTerminator (LF, CR, LS, PS). */
  predicate IsWhitespace(c: char) {
    || c == '\t' || c == '\n' || c == '\U{B}' || c == '\U{C}' || c == '\r'
    || c == ' ' || c == '\U{A0}' || c == '\U{1680}'
    || ('\U{2000}' <= c <= '\U{200A}')
    || c == '\U{2028}' || c == '\U{2029}' || c == '\U{202F}' || c == '\U{205F}'
    || c == '\U{3000}' || c == '\U{FEFF}'
  }

  /** Every character of `s` at positions `lo` to `hi - 1` is whitespace. */
  predicate WhitespaceBetween(s: string, lo: int, hi: int)
    requires 0 <= lo <= hi <= |s|
  {
    forall k :: lo <= k < hi ==> IsWhitespace(s[k])
  }

  predicate AllWhitespace(s: string) {
    WhitespaceBetween(s, 0, |s|)
  }

  /** The first position at or after `i` that does not hold whitespace, or `|s|`. */
  function SkipForward(s: string, i: nat): (j: nat)
    requires i <= |s|
    ensures i <= j <= |s| && WhitespaceBetween(s, i, j)
    ensures j == |s| || !IsWhitespace(s[j])
    decreases |s| - i
  {
    if i < |s| && IsWhitespace(s[i]) then SkipForward(s, i + 1) else i
  }

  /** The position just past the last character before `j`, and not before
      `lo`, that is not whitespace, or `lo`. */
  function SkipBackward(s: string, lo: nat, j: nat): (k: nat)
    requires lo <= j <= |s|
    ensures lo <= k <= j && WhitespaceBetween(s, k, j)
    ensures k == lo || !IsWhitespace(s[k - 1])
    decreases j
  {
    if lo < j && IsWhitespace(s[j - 1]) then SkipBackward(s, lo, j - 1) else j
  }

  /** `s.trim()`: what lies between the leading and the trailing whitespace;
      neither end of it is whitespace. */
  function Trim(s: string): (r: string)
    ensures |r| <= |s|
    ensures r == [] || (!IsWhitespace(r[0]) && !IsWhitespace(r[|r| - 1]))
  {
    var i := SkipForward(s, 0);
    s[i..SkipBackward(s, i, |s|)]
  }

  /** Trim is determined by its effect: whenever `s` splits into an
      all-whitespace prefix, a middle with no whitespace at either end, and an
      all-whitespace suffix, trimming `s` gives that middle. */
  lemma TrimUnique(a: string, m: string, b: string)
    requires AllWhitespace(a) && AllWhitespace(b)
    requires m == [] || (!IsWhitespace(m[0]) && !IsWhitespace(m[|m| - 1]))
    ensures Trim(a + m + b) == m
  {
    var s := a + m + b;
    var i := SkipForward(s, 0);
    var k := SkipBackward(s, i, |s|);
    if m == [] {
      assert AllWhitespace(s) by {
        forall x | 0 <= x < |s| ensures IsWhitespace(s[x]) {
          if x < |a| { assert s[x] == a[x]; } else { assert s[x] == b[x - |a|]; }
        }
      }
      assert i == |s|;
    } else {
      assert s[|a|] == m[0];
      assert i == |a|;
      assert s[|a| + |m| - 1] == m[|m| - 1];
      assert k == |a| + |m|;
      assert s[i..k] == m;
    }
  }

  /** The guard of the chat widget: the trimmed text is empty exactly when
      every character is whitespace. */
  lemma TrimBlankIff(s: string)
    ensures Trim(s) == [] <==> AllWhitespace(s)
  {
    var i := SkipForward(s, 0);
    var k := SkipBackward(s, i, |s|);
    if Trim(s) == [] {
      assert k == i;
    }
  }

  /** Trimming twice is trimming once. */
  lemma TrimIdempotent(s: string)
    ensures Trim(Trim(s)) == Trim(s)
  {
    var r := Trim(s);
    assert r == [] + r + [];
    TrimUnique([], r, []);
  }
}

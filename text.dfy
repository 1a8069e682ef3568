/**
 * The two string operations the application applies to ticker symbols:
 * JavaScript's String.prototype.trim and upper-casing (JavaScript's
 * toUpperCase in the browser, Python's str.upper on the server).
 */
module Text {

  /** The code points trim removes: ECMAScript's WhiteSpace and LineTerminator characters. */
  predicate IsWhitespace(c: char) {
    || c == '\t' || c == '\n' || c == '\U{B}' || c == '\U{C}' || c == '\r' || c == ' '
    || c == '\U{A0}' || c == '\U{1680}' || ('\U{2000}' <= c <= '\U{200A}')
    || c == '\U{2028}' || c == '\U{2029}' || c == '\U{202F}' || c == '\U{205F}'
    || c == '\U{3000}' || c == '\U{FEFF}'
  }

  predicate IsLowerAscii(c: char) {
    'a' <= c <= 'z'
  }

  /** Upper-cases one character; only the ASCII letters a-z change. */
  function UpperChar(c: char): (u: char)
    ensures !IsLowerAscii(u)
    ensures IsWhitespace(u) <==> IsWhitespace(c)
    ensures u == c || (IsLowerAscii(c) && u as int == c as int - 32)
  {
    if IsLowerAscii(c) then (c as int - 32) as char else c
  }

  /** Upper-casing: same length, no lower-case letter left, every other character kept. */
  function Upper(s: string): (r: string)
    ensures |r| == |s|
    ensures forall i :: 0 <= i < |r| ==> !IsLowerAscii(r[i])
    ensures forall i :: 0 <= i < |s| ==> r[i] == UpperChar(s[i])
  {
    if s == [] then [] else [UpperChar(s[0])] + Upper(s[1..])
  }

  /** The index of the first non-whitespace character at or after `i`, or `|s|`. */
  function SkipStart(s: string, i: nat): (n: nat)
    requires i <= |s|
    ensures i <= n <= |s|
    ensures forall k :: i <= k < n ==> IsWhitespace(s[k])
    ensures n == |s| || !IsWhitespace(s[n])
    decreases |s| - i
  {
    if i < |s| && IsWhitespace(s[i]) then SkipStart(s, i + 1) else i
  }

  /** The index just past the last non-whitespace character in `s[lo..j]`, or `lo`. */
  function SkipEnd(s: string, lo: nat, j: nat): (m: nat)
    requires lo <= j <= |s|
    ensures lo <= m <= j
    ensures forall k :: m <= k < j ==> IsWhitespace(s[k])
    ensures m == lo || !IsWhitespace(s[m - 1])
    decreases j
  {
    if j > lo && IsWhitespace(s[j - 1]) then SkipEnd(s, lo, j - 1) else j
  }

  /** Neither starts nor ends with whitespace. */
  predicate IsTrimmed(s: string) {
    s == [] || (!IsWhitespace(s[0]) && !IsWhitespace(s[|s| - 1]))
  }

  /** String.prototype.trim: the input with the leading and the trailing run of whitespace removed. */
  function Trim(s: string): (r: string)
    ensures IsTrimmed(r)
    ensures |r| <= |s|
    ensures r == [] <==> forall i :: 0 <= i < |s| ==> IsWhitespace(s[i])
    ensures IsTrimmed(s) ==> r == s
    ensures exists a, b :: 0 <= a <= b <= |s| && r == s[a..b] && BlankOutside(s, a, b)
  {
    var a := SkipStart(s, 0);
    var b := SkipEnd(s, a, |s|);
    assert BlankOutside(s, a, b);
    s[a..b]
  }

  /** Every character before `a` and from `b` on is whitespace. */
  predicate BlankOutside(s: string, a: nat, b: nat)
    requires a <= b <= |s|
  {
    && (forall i :: 0 <= i < a ==> IsWhitespace(s[i]))
    && (forall i :: b <= i < |s| ==> IsWhitespace(s[i]))
  }

  /** Upper-casing keeps a trimmed string trimmed, and upper-casing twice is upper-casing once. */
  lemma {:induction false} UpperKeepsTrimmed(s: string)
    requires IsTrimmed(s)
    ensures IsTrimmed(Upper(s))
    ensures Upper(Upper(s)) == Upper(s)
  {
    var u := Upper(s);
    if s != [] {
      assert u[0] == UpperChar(s[0]) && u[|u| - 1] == UpperChar(s[|s| - 1]);
    }
    var uu := Upper(u);
    assert |uu| == |u|;
    forall i | 0 <= i < |u| ensures uu[i] == u[i] {
      assert uu[i] == UpperChar(u[i]);
    }
  }
}

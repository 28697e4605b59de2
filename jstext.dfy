/** The JavaScript string operations the core relies on: trim, toLowerCase, includes, join and number-to-text. */
module JsText {

  /** WhiteSpace and LineTerminator code points: what String.prototype.trim strips and what
      `\s` matches. Below U+0080 they are tab, line feed, vertical tab, form feed, carriage
      return and space. */
  predicate IsWhiteSpace(c: char)
  {
    if c < '\U{0080}' then '\t' <= c <= '\r' || c == ' '
    else
      || c == '\U{00A0}' || c == '\U{1680}' || ('\U{2000}' <= c <= '\U{200A}')
      || c == '\U{2028}' || c == '\U{2029}' || c == '\U{202F}' || c == '\U{205F}'
      || c == '\U{3000}' || c == '\U{FEFF}'
  }

  /** LineTerminator: the characters that `.` in a regular expression does not match. */
  predicate IsLineTerminator(c: char)
  {
    c == '\n' || c == '\r' || c == '\U{2028}' || c == '\U{2029}'
  }

  predicate IsDigit(c: char)
  {
    '0' <= c <= '9'
  }

  predicate IsAsciiLetter(c: char)
  {
    'A' <= c <= 'Z' || 'a' <= c <= 'z'
  }

  predicate AllWhiteSpace(s: string)
  {
    forall i :: 0 <= i < |s| ==> IsWhiteSpace(s[i])
  }

  /** The end of the run of white space that starts at position i. */
  function WhiteSpaceRunEnd(s: string, i: nat): (n: nat)
    requires i <= |s|
    ensures i <= n <= |s|
    ensures forall k :: i <= k < n ==> IsWhiteSpace(s[k])
    ensures n == |s| || !IsWhiteSpace(s[n])
    decreases |s| - i
  {
    if i < |s| && IsWhiteSpace(s[i]) then WhiteSpaceRunEnd(s, i + 1) else i
  }

  /** The length of the run of white space that s starts with. */
  function LeadingWhiteSpace(s: string): (n: nat)
    ensures n <= |s|
    ensures forall k :: 0 <= k < n ==> IsWhiteSpace(s[k])
    ensures n == |s| || !IsWhiteSpace(s[n])
  {
    WhiteSpaceRunEnd(s, 0)
  }

  /** The end of s once the run of white space it ends with is dropped, never going below lo. */
  function TrailingWhiteSpaceStart(s: string, lo: nat, e: nat): (n: nat)
    requires lo <= e <= |s|
    requires forall k :: e <= k < |s| ==> IsWhiteSpace(s[k])
    ensures lo <= n <= e
    ensures forall k :: n <= k < |s| ==> IsWhiteSpace(s[k])
    ensures n == lo || !IsWhiteSpace(s[n - 1])
    decreases e
  {
    if lo < e && IsWhiteSpace(s[e - 1]) then TrailingWhiteSpaceStart(s, lo, e - 1) else e
  }

  /** String.prototype.trimStart: s without the run of white space it starts with. */
  function TrimStart(s: string): (r: string)
    ensures r == s[LeadingWhiteSpace(s)..]
    ensures r == [] || !IsWhiteSpace(r[0])
  {
    s[LeadingWhiteSpace(s)..]
  }

  /** String.prototype.trim: the slice of s that follows its leading white space and is
      followed only by white space, with no white space at either end. */
  function Trim(s: string): (r: string)
    ensures LeadingWhiteSpace(s) + |r| <= |s|
    ensures r == s[LeadingWhiteSpace(s)..LeadingWhiteSpace(s) + |r|]
    ensures forall i :: LeadingWhiteSpace(s) + |r| <= i < |s| ==> IsWhiteSpace(s[i])
    ensures r == [] || (!IsWhiteSpace(r[0]) && !IsWhiteSpace(r[|r| - 1]))
    ensures r == [] <==> AllWhiteSpace(s)
  {
    var a := LeadingWhiteSpace(s);
    var e := TrailingWhiteSpaceStart(s, a, |s|);
    assert a < e ==> !IsWhiteSpace(s[a..e][0]) && !IsWhiteSpace(s[a..e][e - a - 1]);
    s[a..e]
  }

  /** Text with no white space at either end is its own trim. */
  lemma TrimUntouched(s: string)
    requires s == [] || (!IsWhiteSpace(s[0]) && !IsWhiteSpace(s[|s| - 1]))
    ensures TrimStart(s) == s && Trim(s) == s
  {
  }

  /** String.prototype.toLowerCase, on the ASCII letters. */
  function LowerChar(c: char): char
  {
    if 'A' <= c <= 'Z' then (c as int + 32) as char else c
  }

  /** Every upper-case ASCII letter becomes its lower-case letter, and every other character
      is kept, so no upper-case ASCII letter is left. */
  function ToLower(s: string): (r: string)
    ensures |r| == |s|
    ensures forall i :: 0 <= i < |s| ==> !('A' <= r[i] <= 'Z')
    ensures forall i :: 0 <= i < |s| && 'A' <= s[i] <= 'Z' ==> r[i] as int == s[i] as int + 32
    ensures forall i :: 0 <= i < |s| && !('A' <= s[i] <= 'Z') ==> r[i] == s[i]
  {
    seq(|s|, i requires 0 <= i < |s| => LowerChar(s[i]))
  }

  /** String.prototype.includes: sub occurs in s at some position. */
  predicate Contains(s: string, sub: string)
  {
    exists i :: 0 <= i <= |s| - |sub| && OccursAt(s, sub, i)
  }

  predicate OccursAt(s: string, sub: string, i: int)
  {
    0 <= i <= |s| - |sub| && s[i..i + |sub|] == sub
  }

  /** A substring of a substring is a substring. */
  /** Every slice of s is contained in s. */
  lemma SliceContained(s: string, i: nat, j: nat)
    requires i <= j <= |s|
    ensures Contains(s, s[i..j])
  {
    assert OccursAt(s, s[i..j], i);
  }

  lemma ContainsTransitive(a: string, b: string, c: string)
    requires Contains(a, b) && Contains(b, c)
    ensures Contains(a, c)
  {
    var i :| 0 <= i <= |a| - |b| && OccursAt(a, b, i);
    var j :| 0 <= j <= |b| - |c| && OccursAt(b, c, j);
    forall k | 0 <= k < |c|
      ensures a[i + j..i + j + |c|][k] == c[k]
    {
      assert c[k] == b[j + k] == a[i + j + k];
    }
    assert a[i + j..i + j + |c|] == c;
    assert OccursAt(a, c, i + j);
  }

  /** Array.prototype.join. */
  function Join(parts: seq<string>, sep: string): string
  {
    if |parts| == 0 then ""
    else if |parts| == 1 then parts[0]
    else parts[0] + sep + Join(parts[1..], sep)
  }

  function DigitChar(d: nat): (c: char)
    requires d < 10
    ensures IsDigit(c)
  {
    ('0' as int + d) as char
  }

  /** The decimal text of a natural number, as String(n) writes it. */
  function NatToString(n: nat): (r: string)
    ensures |r| >= 1 && forall i :: 0 <= i < |r| ==> IsDigit(r[i])
    ensures |r| > 1 ==> r[0] != '0'
  {
    if n < 10 then [DigitChar(n)] else NatToString(n / 10) + [DigitChar(n % 10)]
  }

  function IntToString(n: int): string
  {
    if n < 0 then "-" + NatToString(-n) else NatToString(n)
  }
}

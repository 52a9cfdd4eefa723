/** The part of JavaScript's `String.prototype.trim` the handlers rely on:
    a prompt counts as empty when nothing is left after trimming. */
module JsString {

  /** ECMAScript WhiteSpace and LineTerminator code points, the characters
      `trim` removes. */
  predicate IsJsWhitespace(c: char) {
    c == '\t' || c == '\n' || c == '\U{000B}' || c == '\U{000C}' || c == '\r' || c == ' '
    || c == '\U{00A0}' || c == '\U{1680}' || ('\U{2000}' <= c <= '\U{200A}')
    || c == '\U{2028}' || c == '\U{2029}' || c == '\U{202F}' || c == '\U{205F}'
    || c == '\U{3000}' || c == '\U{FEFF}'
  }

  /** Every character of `s` is whitespace (the empty string included). */
  predicate IsBlank(s: string) {
    forall i :: 0 <= i < |s| ==> IsJsWhitespace(s[i])
  }

  /** How many whitespace characters `s` starts with. */
  function LeadingCount(s: string): (n: nat)
    ensures n <= |s|
    ensures forall i :: 0 <= i < n ==> IsJsWhitespace(s[i])
    ensures n < |s| ==> !IsJsWhitespace(s[n])
  {
    if s == [] || !IsJsWhitespace(s[0]) then 0
    else 1 + LeadingCount(s[1..])
  }

  /** How many whitespace characters `s` ends with. */
  function TrailingCount(s: string): (n: nat)
    ensures n <= |s|
    ensures forall i :: |s| - n <= i < |s| ==> IsJsWhitespace(s[i])
    ensures n < |s| ==> !IsJsWhitespace(s[|s| - n - 1])
  {
    if s == [] || !IsJsWhitespace(s[|s| - 1]) then 0
    else 1 + TrailingCount(s[..|s| - 1])
  }

  /** `String.prototype.trim`: both ends stripped. The result is never
      longer than the input and does not start with whitespace; the full
      characterization is TrimIsCore. */
  function Trim(s: string): (t: string)
    ensures |t| <= |s|
    ensures t == [] || !IsJsWhitespace(t[0])
  {
    var u := s[LeadingCount(s)..];
    u[..|u| - TrailingCount(u)]
  }

  /** `!s.trim()` holds exactly for the blank strings. */
  lemma TrimEmptyIffBlank(s: string)
    ensures Trim(s) == [] <==> IsBlank(s)
  {
    var a := LeadingCount(s);
    assert Trim(s) == [] ==> a == |s|;
  }

  /** Trimming keeps a substring of `s` that neither starts nor ends with
      whitespace. (That what it drops is whitespace is TrimDropsWhitespace.) */
  lemma TrimIsCore(s: string)
    ensures var k := LeadingCount(s); k + |Trim(s)| <= |s| && Trim(s) == s[k..k + |Trim(s)|]
    ensures Trim(s) == [] || (!IsJsWhitespace(Trim(s)[0]) && !IsJsWhitespace(Trim(s)[|Trim(s)| - 1]))
  {
    var k := LeadingCount(s);
    var u := s[k..];
    var t := Trim(s);
    assert t == u[..|u| - TrailingCount(u)];
    if t != [] {
      assert t[0] == u[0] == s[k];
      assert t[|t| - 1] == u[|u| - TrailingCount(u) - 1];
    }
  }

  /** What trimming removes, before and after the kept part, is whitespace. */
  lemma TrimDropsWhitespace(s: string)
    ensures var k := LeadingCount(s); k + |Trim(s)| <= |s|
    ensures var k := LeadingCount(s); IsBlank(s[..k]) && IsBlank(s[k + |Trim(s)|..])
  {
    var k := LeadingCount(s);
    var u := s[k..];
    var n := TrailingCount(u);
    assert Trim(s) == u[..|u| - n];
    assert s[k + |Trim(s)|..] == u[|u| - n..];
  }
}

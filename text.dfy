/**
 * The string operations of JavaScript that the client relies on: `trim`,
 * ASCII `toUpperCase` / `toLowerCase`, and `split('T')[0]` on ISO timestamps.
 */
module Text {

  /** The code points `String.prototype.trim` removes: WhiteSpace and LineTerminator. */
  predicate IsWhite(c: char)
  {
    || c == '\t' || c == '\n' || c == '\U{000B}' || c == '\U{000C}' || c == '\r'
    || c == ' ' || c == '\U{00A0}' || c == '\U{1680}'
    || ('\U{2000}' <= c <= '\U{200A}')
    || c == '\U{2028}' || c == '\U{2029}' || c == '\U{202F}' || c == '\U{205F}'
    || c == '\U{3000}' || c == '\U{FEFF}'
  }

  /** Every character is white space; `!s.trim()` holds exactly then (`BlankIffTrimEmpty`). */
  predicate AllWhite(s: string)
  {
    forall i :: 0 <= i < |s| ==> IsWhite(s[i])
  }

  /** Where the leading white space of `s` ends, scanning from `i`. */
  function LeadEnd(s: string, i: nat): (n: nat)
    requires i <= |s|
    ensures i <= n <= |s|
    ensures forall j :: i <= j < n ==> IsWhite(s[j])
    ensures n < |s| ==> !IsWhite(s[n])
    decreases |s| - i
  {
    if i < |s| && IsWhite(s[i]) then LeadEnd(s, i + 1) else i
  }

  /** Where the trailing white space of `s` starts, scanning down from `k`. */
  function TrailStart(s: string, k: nat): (n: nat)
    requires k <= |s|
    ensures n <= k
    ensures forall j :: n <= j < k ==> IsWhite(s[j])
    ensures n > 0 ==> !IsWhite(s[n - 1])
  {
    if k > 0 && IsWhite(s[k - 1]) then TrailStart(s, k - 1) else k
  }

  /** `s.trim()`: the leading and the trailing white space removed. */
  function Trim(s: string): string
  {
    var t := s[LeadEnd(s, 0)..];
    t[..TrailStart(t, |t|)]
  }

  /** Trimming leaves nothing exactly when every character is white space. */
  lemma BlankIffTrimEmpty(s: string)
    ensures AllWhite(s) <==> Trim(s) == ""
  {
    var lead := LeadEnd(s, 0);
    var t := s[lead..];
    assert lead < |s| ==> t[0] == s[lead];
  }

  /** A trimmed string neither starts nor ends with white space. */
  lemma TrimEnds(s: string)
    ensures var r := Trim(s);
      r != [] ==> !IsWhite(r[0]) && !IsWhite(r[|r| - 1])
  {
    var t := s[LeadEnd(s, 0)..];
    var r := t[..TrailStart(t, |t|)];
    if r != [] {
      assert r[0] == t[0];
    }
  }

  /** A trimmed string is a piece of the original, and what is cut off on either side is white space. */
  lemma TrimInside(s: string) returns (start: nat)
    ensures start + |Trim(s)| <= |s| && Trim(s) == s[start..start + |Trim(s)|]
    ensures AllWhite(s[..start]) && AllWhite(s[start + |Trim(s)|..])
  {
    start := LeadEnd(s, 0);
    var t := s[start..];
    var n := TrailStart(t, |t|);
    assert s[start + n..] == t[n..];
  }

  predicate IsUpper(c: char) { 'A' <= c <= 'Z' }
  predicate IsLower(c: char) { 'a' <= c <= 'z' }
  predicate IsDigit(c: char) { '0' <= c <= '9' }

  /** A character that the regular-expression class `\w` matches. */
  predicate IsWordChar(c: char) { IsUpper(c) || IsLower(c) || IsDigit(c) || c == '_' }

  /** ASCII `toUpperCase` of one character. */
  function ToUpper(c: char): (r: char)
    ensures IsLower(c) ==> IsUpper(r) && r as int == c as int - 32
    ensures !IsLower(c) ==> r == c
  {
    if IsLower(c) then (c as int - 32) as char else c
  }

  /** ASCII `toLowerCase` of one character. */
  function ToLower(c: char): (r: char)
    ensures IsUpper(c) ==> IsLower(r) && r as int == c as int + 32
    ensures !IsUpper(c) ==> r == c
  {
    if IsUpper(c) then (c as int + 32) as char else c
  }

  /** ASCII `s.toLowerCase()`, one character for one character. */
  function Lower(s: string): (r: string)
    ensures |r| == |s|
    ensures forall i :: 0 <= i < |s| ==> r[i] == ToLower(s[i])
  {
    seq(|s|, i requires 0 <= i < |s| => ToLower(s[i]))
  }

  /** `s.split('T')[0]`: everything before the first `T`, or all of `s`. */
  function BeforeT(s: string): (r: string)
    ensures |r| <= |s| && r == s[..|r|]
    ensures 'T' !in r
    ensures |r| < |s| ==> s[|r|] == 'T'
  {
    if s == [] || s[0] == 'T' then "" else [s[0]] + BeforeT(s[1..])
  }
}

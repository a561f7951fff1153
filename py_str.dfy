/**
  Python string built-ins that the model relies on: the characters `str.isspace`
  accepts and `str.strip()` with no arguments, which removes them from both ends.
 */
module PyStr {

  /** The characters Python's `str.isspace` accepts (and `str.strip()` removes):
      ASCII tab, line feed, vertical tab, form feed, carriage return, the four
      information separators, space, and the Unicode spaces and line/paragraph separators. */
  predicate IsWhitespace(c: char)
    ensures c == ' ' || c == '\t' || c == '\n' || c == '\r' ==> IsWhitespace(c)
    ensures ('0' <= c <= '9') || ('a' <= c <= 'z') || ('A' <= c <= 'Z') || c == '-' ==> !IsWhitespace(c)
  {
    var n := c as int;
    (0x09 <= n <= 0x0D) || (0x1C <= n <= 0x20) || n == 0x85 || n == 0xA0 ||
    n == 0x1680 || (0x2000 <= n <= 0x200A) || n == 0x2028 || n == 0x2029 ||
    n == 0x202F || n == 0x205F || n == 0x3000
  }

  /** Every character of `s` is whitespace (true of the empty string). */
  predicate IsBlank(s: string) {
    forall i :: 0 <= i < |s| ==> IsWhitespace(s[i])
  }

  /** Every character of `s` from index `lo` up to `hi` is whitespace. */
  predicate BlankRange(s: string, lo: int, hi: int)
    requires 0 <= lo <= hi <= |s|
  {
    forall k :: lo <= k < hi ==> IsWhitespace(s[k])
  }

  /** The first index at or after `i` that does not hold whitespace, or `|s|`:
      where `strip()` starts the result. */
  function StartIndex(s: string, i: nat): (k: nat)
    requires i <= |s|
    ensures i <= k <= |s| && BlankRange(s, i, k)
    ensures k < |s| ==> !IsWhitespace(s[k])
    decreases |s| - i
  {
    if i < |s| && IsWhitespace(s[i]) then StartIndex(s, i + 1) else i
  }

  /** Scanning back from `j` to no further than `lo`, the index just past the last
      character that is not whitespace, or `lo`: where `strip()` ends the result. */
  function EndIndex(s: string, lo: nat, j: nat): (k: nat)
    requires lo <= j <= |s|
    ensures lo <= k <= j && BlankRange(s, k, j)
    ensures k > lo ==> !IsWhitespace(s[k - 1])
  {
    if j > lo && IsWhitespace(s[j - 1]) then EndIndex(s, lo, j - 1) else j
  }

  /** Python's `s.strip()`: the characters between the first and the last
      that are not whitespace. */
  function Strip(s: string): (r: string)
    ensures |r| <= |s|
    ensures r != [] ==> !IsWhitespace(r[0]) && !IsWhitespace(r[|r| - 1])
  {
    var i := StartIndex(s, 0);
    s[i..EndIndex(s, i, |s|)]
  }

  /** `Strip(s)` is the infix `s[i..j]` that is surrounded only by whitespace and,
      when not empty, neither starts nor ends with whitespace. */
  lemma StripIsInfix(s: string) returns (i: nat, j: nat)
    ensures i <= j <= |s| && Strip(s) == s[i..j]
    ensures BlankRange(s, 0, i) && BlankRange(s, j, |s|)
    ensures i < j ==> !IsWhitespace(s[i]) && !IsWhitespace(s[j - 1])
  {
    i := StartIndex(s, 0);
    j := EndIndex(s, i, |s|);
  }

  /** Python's `not s.strip()` holds exactly when `s` is empty or all whitespace. */
  lemma StripEmptyIffBlank(s: string)
    ensures Strip(s) == [] <==> IsBlank(s)
  {
    var i := StartIndex(s, 0);
    var j := EndIndex(s, i, |s|);
    if !IsBlank(s) {
      var k :| 0 <= k < |s| && !IsWhitespace(s[k]);
      assert i <= k;
      assert j > i;
    }
  }
}

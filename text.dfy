/** String operations the core relies on: JavaScript's `String.prototype.trim`
    and `String.prototype.slice(0, n)`. A string is a sequence of characters. */
module Text {

  /** The characters ECMAScript's `trim` removes: the WhiteSpace code points
      (tab, vertical tab, form feed, space, no-break space, byte-order mark and the
      other space separators of category Zs) and the LineTerminator code points. */
  predicate IsWhitespace(c: char) {
    c == '\t' || c == '\n' || c == '\U{000B}' || c == '\U{000C}' || c == '\r' || c == ' ' ||
    c == '\U{00A0}' || c == '\U{1680}' || ('\U{2000}' <= c <= '\U{200A}') ||
    c == '\U{2028}' || c == '\U{2029}' || c == '\U{202F}' || c == '\U{205F}' ||
    c == '\U{3000}' || c == '\U{FEFF}'
  }

  /** Every character of `s` is whitespace. */
  predicate AllWhitespace(s: string) {
    forall i :: 0 <= i < |s| ==> IsWhitespace(s[i])
  }

  /** `s` neither starts nor ends with whitespace. */
  predicate Trimmed(s: string) {
    s == [] || (!IsWhitespace(s[0]) && !IsWhitespace(s[|s| - 1]))
  }

  /** How many whitespace characters `s` starts with. */
  function LeadingSpace(s: string): (n: nat)
    ensures n <= |s|
  {
    if s != [] && IsWhitespace(s[0]) then 1 + LeadingSpace(s[1..]) else 0
  }

  /** How many whitespace characters `s` ends with. */
  function TrailingSpace(s: string): (n: nat)
    ensures n <= |s|
  {
    if s != [] && IsWhitespace(s[|s| - 1]) then 1 + TrailingSpace(s[..|s| - 1]) else 0
  }

  /** The leading run is whitespace, and the character after it is not. */
  lemma {:induction false} LeadingSpaceMeans(s: string)
    ensures forall k :: 0 <= k < LeadingSpace(s) ==> IsWhitespace(s[k])
    ensures LeadingSpace(s) < |s| ==> !IsWhitespace(s[LeadingSpace(s)])
  {
    if s != [] && IsWhitespace(s[0]) {
      LeadingSpaceMeans(s[1..]);
      assert forall k :: 1 <= k < |s| ==> s[k] == s[1..][k - 1];
    }
  }

  /** The trailing run is whitespace, and the character before it is not. */
  lemma {:induction false} TrailingSpaceMeans(s: string)
    ensures forall k :: |s| - TrailingSpace(s) <= k < |s| ==> IsWhitespace(s[k])
    ensures TrailingSpace(s) < |s| ==> !IsWhitespace(s[|s| - 1 - TrailingSpace(s)])
  {
    if s != [] && IsWhitespace(s[|s| - 1]) {
      TrailingSpaceMeans(s[..|s| - 1]);
      assert forall k :: 0 <= k < |s| - 1 ==> s[k] == s[..|s| - 1][k];
    }
  }

  /** JavaScript's `s.trim()`: `s` without its leading and trailing whitespace.
      What is left neither starts nor ends with whitespace. */
  function Trim(s: string): (r: string)
    ensures |r| <= |s| && Trimmed(r)
  {
    var i := LeadingSpace(s);
    var a := s[i..];
    var r := a[..|a| - TrailingSpace(a)];
    LeadingSpaceMeans(s);
    TrailingSpaceMeans(a);
    assert r != [] ==> r[0] == s[i] && r[|r| - 1] == a[|a| - 1 - TrailingSpace(a)];
    r
  }

  /** Only whitespace is cut away: `s.trim()` is the middle part `s[i..j]` of `s`,
      with whitespace only before `i` and after `j`. */
  lemma TrimCutsWhitespace(s: string)
    ensures var i := LeadingSpace(s);
            var j := i + |Trim(s)|;
            j <= |s| && Trim(s) == s[i..j] &&
            (forall k :: 0 <= k < i ==> IsWhitespace(s[k])) &&
            (forall k :: j <= k < |s| ==> IsWhitespace(s[k]))
  {
    var i := LeadingSpace(s);
    var a := s[i..];
    var j := |s| - TrailingSpace(a);
    assert Trim(s) == a[..|a| - TrailingSpace(a)] == s[i..j];
    LeadingSpaceMeans(s);
    TrailingSpaceMeans(a);
    forall k | j <= k < |s| ensures IsWhitespace(s[k]) {
      var m := k - i;
      assert IsWhitespace(a[m]);
    }
  }

  /** `s.trim()` is empty exactly when `s` is made of whitespace only. */
  lemma TrimEmptyIff(s: string)
    ensures Trim(s) == [] <==> AllWhitespace(s)
  {
    TrimCutsWhitespace(s);
    LeadingSpaceMeans(s);
  }

  /** Trimming a trimmed string changes nothing: `trim` is idempotent. */
  lemma TrimOfTrimmed(s: string)
    requires Trimmed(s)
    ensures Trim(s) == s
  {
    assert LeadingSpace(s) == 0;
    assert s[0..] == s;
  }

  /** JavaScript's `s.slice(0, n)`: the first `n` characters, or all of `s` when it is shorter. */
  function Take(s: string, n: nat): (r: string)
    ensures |r| == if |s| <= n then |s| else n
    ensures r <= s
  {
    if |s| <= n then s else s[..n]
  }
}

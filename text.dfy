/** The JavaScript string operations the wizard relies on: `startsWith` and `trim`. */
module Text {

  /** `s.startsWith(prefix)`. */
  predicate StartsWith(s: string, prefix: string) {
    prefix <= s
  }

  /**
    What `String.prototype.trim` strips: the ECMAScript WhiteSpace code points
    (tab, vertical tab, form feed, the byte-order mark and every space
    separator) and LineTerminator code points (LF, CR, LS, PS).
   */
  predicate IsTrimmable(c: char) {
    || c == '\t' || c == '\U{000B}' || c == '\U{000C}' || c == '\U{FEFF}'
    || c == ' ' || c == '\U{00A0}' || c == '\U{1680}' || ('\U{2000}' <= c <= '\U{200A}')
    || c == '\U{202F}' || c == '\U{205F}' || c == '\U{3000}'
    || c == '\n' || c == '\r' || c == '\U{2028}' || c == '\U{2029}'
  }

  /** How many trimmable characters `s` starts with. */
  function LeadingCount(s: string): (n: nat)
    ensures n <= |s|
  {
    if s == [] || !IsTrimmable(s[0]) then 0
    else 1 + LeadingCount(s[1..])
  }

  /** LeadingCount counts the longest trimmable prefix. */
  lemma {:induction false} LeadingCountSpec(s: string)
    ensures forall k :: 0 <= k < LeadingCount(s) ==> IsTrimmable(s[k])
    ensures LeadingCount(s) < |s| ==> !IsTrimmable(s[LeadingCount(s)])
  {
    if s != [] && IsTrimmable(s[0]) {
      LeadingCountSpec(s[1..]);
      forall k | 1 <= k < LeadingCount(s) ensures IsTrimmable(s[k]) {
        assert s[k] == s[1..][k - 1];
      }
    }
  }

  /** How many trimmable characters `s` ends with. */
  function TrailingCount(s: string): (n: nat)
    ensures n <= |s|
  {
    if s == [] || !IsTrimmable(s[|s| - 1]) then 0
    else 1 + TrailingCount(s[..|s| - 1])
  }

  /** TrailingCount counts the longest trimmable suffix. */
  lemma {:induction false} TrailingCountSpec(s: string)
    ensures forall k :: |s| - TrailingCount(s) <= k < |s| ==> IsTrimmable(s[k])
    ensures TrailingCount(s) < |s| ==> !IsTrimmable(s[|s| - 1 - TrailingCount(s)])
  {
    if s != [] && IsTrimmable(s[|s| - 1]) {
      var p := s[..|s| - 1];
      TrailingCountSpec(p);
      forall k | |s| - TrailingCount(s) <= k < |s| - 1 ensures IsTrimmable(s[k]) {
        assert s[k] == p[k];
      }
    }
  }

  /** `s.trim()`: the slice of `s` between its trimmable prefix and its trimmable suffix. */
  function Trim(s: string): (r: string)
    ensures LeadingCount(s) + |r| <= |s| && r == s[LeadingCount(s)..LeadingCount(s) + |r|]
  {
    var t := s[LeadingCount(s)..];
    t[..|t| - TrailingCount(t)]
  }

  /**
    Everything `Trim` cuts off is trimmable, and what it keeps neither starts
    nor ends with a trimmable character.
   */
  lemma TrimSpec(s: string)
    ensures forall k :: 0 <= k < LeadingCount(s) ==> IsTrimmable(s[k])
    ensures forall k :: LeadingCount(s) + |Trim(s)| <= k < |s| ==> IsTrimmable(s[k])
    ensures Trim(s) == [] || (!IsTrimmable(Trim(s)[0]) && !IsTrimmable(Trim(s)[|Trim(s)| - 1]))
  {
    var i := LeadingCount(s);
    var t := s[i..];
    LeadingCountSpec(s);
    TrailingCountSpec(t);
    var r := Trim(s);
    forall k | i + |r| <= k < |s| ensures IsTrimmable(s[k]) {
      assert s[k] == t[k - i];
    }
    if r != [] {
      assert r[0] == s[i];
      assert r[|r| - 1] == t[|t| - 1 - TrailingCount(t)];
    }
  }

  /** Trimming twice is trimming once. */
  lemma TrimIdempotent(s: string)
    ensures Trim(Trim(s)) == Trim(s)
  {
    var t := Trim(s);
    TrimSpec(s);
    assert LeadingCount(t) == 0;
    assert t[0..] == t;
    assert TrailingCount(t) == 0;
  }
}

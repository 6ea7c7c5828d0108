/** PHP's `trim` with its default character list. */
module PhpString {

  /** The characters `trim` strips when no list is given:
      space, tab, line feed, carriage return, NUL and vertical tab. */
  predicate IsTrimmable(c: char) {
    c == ' ' || c == '\t' || c == '\n' || c == '\r' || c == '\0' || c == '\U{000B}'
  }

  predicate AllTrimmable(s: string) {
    forall i :: 0 <= i < |s| ==> IsTrimmable(s[i])
  }

  /** Neither the first nor the last character is strippable. */
  predicate IsTrimmed(s: string) {
    s == [] || (!IsTrimmable(s[0]) && !IsTrimmable(s[|s| - 1]))
  }

  /** Length of the longest strippable prefix. */
  function LeadingCount(s: string): (k: nat)
    ensures k <= |s|
    ensures AllTrimmable(s[..k])
    ensures k < |s| ==> !IsTrimmable(s[k])
  {
    if s == [] || !IsTrimmable(s[0]) then 0
    else
      var k' := LeadingCount(s[1..]);
      assert s[1..][..k'] == s[1..k' + 1];
      1 + k'
  }

  /** Length of the longest strippable suffix. */
  function TrailingCount(s: string): (k: nat)
    ensures k <= |s|
    ensures AllTrimmable(s[|s| - k..])
    ensures k < |s| ==> !IsTrimmable(s[|s| - 1 - k])
  {
    if s == [] || !IsTrimmable(s[|s| - 1]) then 0
    else
      var k' := TrailingCount(s[..|s| - 1]);
      assert s[..|s| - 1][|s| - 1 - k'..] == s[|s| - 1 - k'..|s| - 1];
      1 + k'
  }

  /** `trim($s)`: `s` with its strippable prefix and suffix removed. The
      result is the part of `s` between a strippable prefix and a strippable
      suffix, and neither of its ends can be stripped further. */
  function Trim(s: string): (r: string)
    ensures |r| <= |s|
    ensures IsTrimmed(r)
    ensures var k := LeadingCount(s);
      && k + |r| <= |s|
      && r == s[k..k + |r|]
      && AllTrimmable(s[..k])
      && AllTrimmable(s[k + |r|..])
  {
    var k := LeadingCount(s);
    var rest := s[k..];
    var j := TrailingCount(rest);
    var r := rest[..|rest| - j];
    assert r == s[k..k + |r|];
    assert s[k + |r|..] == rest[|rest| - j..];
    assert r != [] ==> r[0] == s[k] && r[|r| - 1] == rest[|rest| - 1 - j];
    r
  }

  /** Trimming twice is trimming once. */
  lemma TrimIdempotent(s: string)
    ensures Trim(Trim(s)) == Trim(s)
  {
    TrimOfTrimmed(Trim(s));
  }

  /** A string with no strippable end is its own trim. */
  lemma TrimOfTrimmed(s: string)
    requires IsTrimmed(s)
    ensures Trim(s) == s
  {
    if s != [] {
      assert LeadingCount(s) == 0;
      assert TrailingCount(s) == 0;
    }
  }
}

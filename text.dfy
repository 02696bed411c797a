/** Comment text as the review actions treat it: Python's `str.strip()` and
    the truth value of the stripped string. */
module Text {

  /** The characters for which Python's `str.isspace()` holds. */
  predicate IsSpace(c: char) {
    var n := c as int;
    (9 <= n <= 13) || (0x1C <= n <= 0x20) || n == 0x85 || n == 0xA0 || n == 0x1680
    || (0x2000 <= n <= 0x200A) || n == 0x2028 || n == 0x2029 || n == 0x202F
    || n == 0x205F || n == 0x3000
  }

  /** The number of whitespace characters `s` starts with. */
  function LeadingSpaces(s: string): (k: nat)
    ensures k <= |s|
    ensures forall i :: 0 <= i < k ==> IsSpace(s[i])
    ensures k < |s| ==> !IsSpace(s[k])
  {
    if s != [] && IsSpace(s[0]) then
      var k := LeadingSpaces(s[1..]);
      assert forall i :: 1 <= i < 1 + k ==> s[i] == s[1..][i - 1];
      1 + k
    else 0
  }

  /** The number of whitespace characters `s` ends with. */
  function TrailingSpaces(s: string): (m: nat)
    ensures m <= |s|
    ensures forall i :: |s| - m <= i < |s| ==> IsSpace(s[i])
    ensures m < |s| ==> !IsSpace(s[|s| - m - 1])
  {
    if s != [] && IsSpace(s[|s| - 1]) then
      var m := TrailingSpaces(s[..|s| - 1]);
      assert forall i :: |s| - 1 - m <= i < |s| - 1 ==> s[i] == s[..|s| - 1][i];
      m + 1
    else 0
  }

  /** How many leading whitespace characters `s.strip()` removes. */
  function StripOffset(s: string): (k: nat)
    ensures k <= |s|
  {
    LeadingSpaces(s)
  }

  /** `s.strip()`: `s` without its leading and trailing whitespace. The
      result is the slice of `s` at `StripOffset(s)`, everything around it
      is whitespace and its ends are not, which fixes it; it is empty
      exactly when every character of `s` is whitespace. */
  function Strip(s: string): (r: string)
    ensures StripOffset(s) + |r| <= |s| && r == s[StripOffset(s)..StripOffset(s) + |r|]
    ensures forall i :: 0 <= i < StripOffset(s) ==> IsSpace(s[i])
    ensures forall i :: StripOffset(s) + |r| <= i < |s| ==> IsSpace(s[i])
    ensures r != [] ==> !IsSpace(r[0]) && !IsSpace(r[|r| - 1])
    ensures r == [] <==> forall i :: 0 <= i < |s| ==> IsSpace(s[i])
  {
    var k := LeadingSpaces(s);
    var m := TrailingSpaces(s[k..]);
    StripSlice(s, k, m);
    s[k..|s| - m]
  }

  lemma StripSlice(s: string, k: nat, m: nat)
    requires k <= |s| && m <= |s| - k
    requires forall i :: 0 <= i < k ==> IsSpace(s[i])
    requires k < |s| ==> !IsSpace(s[k])
    requires forall j :: |s| - k - m <= j < |s| - k ==> IsSpace(s[k..][j])
    requires m < |s| - k ==> !IsSpace(s[k..][|s| - k - m - 1])
    ensures k + m <= |s|
    ensures forall i :: |s| - m <= i < |s| ==> IsSpace(s[i])
    ensures k + m < |s| ==> !IsSpace(s[k]) && !IsSpace(s[|s| - m - 1])
    ensures k + m == |s| <==> forall i :: 0 <= i < |s| ==> IsSpace(s[i])
  {
    var t := s[k..];
    forall i | |s| - m <= i < |s|
      ensures IsSpace(s[i])
    {
      assert s[i] == t[i - k];
    }
    if k + m < |s| {
      assert s[|s| - m - 1] == t[|t| - m - 1];
    }
  }

  /** `not s.strip()`: the comment is empty or whitespace only. */
  predicate IsBlank(s: string) {
    Strip(s) == []
  }
}

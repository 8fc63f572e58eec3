/** Whitespace trimming as done by Python's `str.strip()` with no argument. */
module Text {

  /** Python's `str.isspace()` for one character: the ASCII controls TAB..CR and FS..US,
      the space, NEL, NO-BREAK SPACE and the Unicode space separators and line/paragraph
      separators. */
  predicate IsSpace(c: char) {
    var n := c as int;
    (0x09 <= n <= 0x0D) || (0x1C <= n <= 0x20) || n == 0x85 || n == 0xA0 || n == 0x1680
    || (0x2000 <= n <= 0x200A) || n == 0x2028 || n == 0x2029 || n == 0x202F || n == 0x205F
    || n == 0x3000
  }

  predicate AllSpace(s: string) {
    forall i :: 0 <= i < |s| ==> IsSpace(s[i])
  }

  /** The number of whitespace characters `s` starts with. */
  function LeadingSpace(s: string): (n: nat)
    ensures n <= |s| && AllSpace(s[..n])
    ensures n == |s| || !IsSpace(s[n])
  {
    if s != [] && IsSpace(s[0]) then 1 + LeadingSpace(s[1..]) else 0
  }

  /** Drops the longest all-whitespace suffix. */
  function TrimEnd(s: string): string
    decreases |s|
  {
    if s != [] && IsSpace(s[|s| - 1]) then TrimEnd(s[..|s| - 1]) else s
  }

  /** `s.strip()`: drops the leading whitespace, then the trailing whitespace. */
  function Strip(s: string): string
    decreases |s|
  {
    if s != [] && IsSpace(s[0]) then Strip(s[1..]) else TrimEnd(s)
  }

  /** `TrimEnd` keeps a prefix, drops only whitespace and stops at a non-space. */
  lemma {:induction false} TrimEndSpec(s: string)
    ensures var r := TrimEnd(s);
            && |r| <= |s| && r == s[..|r|]
            && AllSpace(s[|r|..])
            && (r == [] || !IsSpace(r[|r| - 1]))
    decreases |s|
  {
    if s != [] && IsSpace(s[|s| - 1]) {
      var t := s[..|s| - 1];
      TrimEndSpec(t);
      var r := TrimEnd(t);
      assert r == s[..|r|];
      assert s[|r|..] == t[|r|..] + [s[|s| - 1]];
    }
  }

  /** `s.strip()` is the slice of `s` that starts after its leading whitespace, neither
      starts nor ends with whitespace, and is followed by whitespace only. */
  lemma {:induction false} StripSpec(s: string)
    ensures var a, r := LeadingSpace(s), Strip(s);
            && a + |r| <= |s|
            && r == s[a..a + |r|]
            && AllSpace(s[a + |r|..])
            && (r == [] || (!IsSpace(r[0]) && !IsSpace(r[|r| - 1])))
    decreases |s|
  {
    if s != [] && IsSpace(s[0]) {
      var t := s[1..];
      StripSpec(t);
      var a, r := LeadingSpace(t), Strip(t);
      assert LeadingSpace(s) == a + 1 && Strip(s) == r;
      assert r == s[a + 1..a + 1 + |r|] by {
        assert s[a + 1..a + 1 + |r|] == t[a..a + |r|];
      }
      assert AllSpace(s[a + 1 + |r|..]) by {
        assert s[a + 1 + |r|..] == t[a + |r|..];
      }
    } else {
      TrimEndSpec(s);
    }
  }

  /** A value strips to nothing exactly when it consists of whitespace only. */
  lemma StripEmptyIffAllSpace(s: string)
    ensures Strip(s) == [] <==> AllSpace(s)
  {
    var r := Strip(s);
    var a := LeadingSpace(s);
    StripSpec(s);
    if r == [] {
      assert forall i :: 0 <= i < |s| ==> s[..a][i] == s[i];
    } else {
      assert s[a] == r[0];
    }
  }
}

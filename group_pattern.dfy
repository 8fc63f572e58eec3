/** The group number written in a roster's `Gruppe` field: the search
    `re.search(r"Gruppe .(\d+)", field)` followed by `int()` of the captured digits
    (generate_qr.py:29-31), and `str()` of a number, which names the sheet column. */
module GroupPattern {
  import opened Wrappers
  import opened Text

  predicate IsDigit(c: char) {
    '0' <= c <= '9'
  }

  predicate AllDigits(s: string) {
    forall i :: 0 <= i < |s| ==> IsDigit(s[i])
  }

  function DigitValue(c: char): nat
    requires IsDigit(c)
  {
    c as int - '0' as int
  }

  function DigitChar(n: nat): (c: char)
    requires n < 10
    ensures IsDigit(c) && DigitValue(c) == n
  {
    ('0' as int + n) as char
  }

  /** `int(d)` for a non-empty run of digits: its decimal value, leading zeros allowed. */
  function DecimalValue(d: string): nat
    requires AllDigits(d)
  {
    if d == [] then 0 else 10 * DecimalValue(d[..|d| - 1]) + DigitValue(d[|d| - 1])
  }

  /** `str(n)`: the decimal digits of `n`, with no leading zero. */
  function Decimal(n: nat): (d: string)
    ensures |d| >= 1 && AllDigits(d)
    ensures d[0] == '0' ==> n == 0
  {
    if n < 10 then [DigitChar(n)] else Decimal(n / 10) + [DigitChar(n % 10)]
  }

  /** `int(str(n)) == n`. */
  lemma {:induction false} DecimalRoundTrip(n: nat)
    ensures DecimalValue(Decimal(n)) == n
  {
    if n >= 10 {
      var d := Decimal(n);
      assert d[..|d| - 1] == Decimal(n / 10);
      DecimalRoundTrip(n / 10);
    }
  }

  /** Leading zeros do not change the value `int()` gives. */
  lemma {:induction false} LeadingZeroIgnored(d: string)
    requires AllDigits(d)
    ensures AllDigits("0" + d) && DecimalValue("0" + d) == DecimalValue(d)
  {
    assert AllDigits("0" + d);
    if d != [] {
      var p := d[..|d| - 1];
      assert ("0" + d)[..|d|] == "0" + p;
      LeadingZeroIgnored(p);
    }
  }

  /** `Gruppe .(\d+)` can match at index `i`: the literal text "Gruppe " (with its
      space), then one character that is not a newline (`.`), then at least one digit. */
  predicate MatchesAt(s: string, i: nat) {
    && i + 9 <= |s|
    && s[i] == 'G' && s[i + 1] == 'r' && s[i + 2] == 'u' && s[i + 3] == 'p'
    && s[i + 4] == 'p' && s[i + 5] == 'e' && s[i + 6] == ' '
    && s[i + 7] != '\n' && IsDigit(s[i + 8])
  }

  /** `i` is the leftmost index at or after `k` where the pattern matches. */
  predicate FirstMatchFrom(s: string, k: nat, i: nat) {
    k <= i && MatchesAt(s, i) && forall j: nat :: k <= j < i ==> !MatchesAt(s, j)
  }

  /** Where the run of digits starting at index `j` ends: the first non-digit at or
      after `j`, or the end of the text. */
  function RunEnd(s: string, j: nat): (e: nat)
    requires j <= |s|
    decreases |s| - j
    ensures j <= e <= |s|
    ensures forall k :: j <= k < e ==> IsDigit(s[k])
    ensures e == |s| || !IsDigit(s[e])
  {
    if j < |s| && IsDigit(s[j]) then RunEnd(s, j + 1) else j
  }

  /** The longest run of digits starting at index `j` (what greedy `\d+` captures). */
  function DigitRun(s: string, j: nat): (r: string)
    requires j <= |s|
    ensures j + |r| <= |s| && AllDigits(r)
    ensures j + |r| == |s| || !IsDigit(s[j + |r|])
  {
    s[j..RunEnd(s, j)]
  }

  /** `int(match.group(1))` for a match at `i`. */
  function GroupAt(s: string, i: nat): nat
    requires MatchesAt(s, i)
  {
    DecimalValue(DigitRun(s, i + 8))
  }

  /** `re.search`: the start of the leftmost match at or after index `k`, trying each
      start index in turn. */
  function FindMatch(s: string, k: nat): (r: Option<nat>)
    decreases |s| - k
    ensures r.None? <==> forall i: nat :: k <= i ==> !MatchesAt(s, i)
    ensures r.Some? ==> FirstMatchFrom(s, k, r.value)
  {
    if |s| < k + 9 then None
    else if MatchesAt(s, k) then Some(k)
    else FindMatch(s, k + 1)
  }

  /** The group number a field names, or None when the pattern does not occur. */
  function ParseGroup(s: string): Option<nat> {
    match FindMatch(s, 0)
    case None => None
    case Some(i) => Some(GroupAt(s, i))
  }

  /** The parse is the value of the digit run of the leftmost match. (That there is no
      parse exactly when the pattern occurs nowhere is `FindMatch`'s contract.) */
  lemma ParseGroupIsLeftmostMatch(s: string, i: nat)
    requires FirstMatchFrom(s, 0, i)
    ensures ParseGroup(s) == Some(GroupAt(s, i))
  {
    var j := FindMatch(s, 0).value;
    assert j == i;
  }

  /** `s[a..b]` is cut from `s` where no match can begin before `a` (there is no `G`)
      and no digit run can go on past `b`. */
  predicate Bordered(s: string, a: nat, b: nat) {
    a <= b <= |s|
    && (forall k :: 0 <= k < a ==> s[k] != 'G')
    && (forall k :: b <= k < |s| ==> !IsDigit(s[k]))
  }

  /** A digit run ends at the same place in a bordered slice as in the whole text. */
  lemma {:induction false} RunEndInSlice(s: string, a: nat, b: nat, j: nat)
    requires Bordered(s, a, b) && a + j <= b
    ensures a + RunEnd(s[a..b], j) == RunEnd(s, a + j)
    decreases b - a - j
  {
    var t := s[a..b];
    if a + j < b {
      assert t[j] == s[a + j];
      if IsDigit(s[a + j]) {
        RunEndInSlice(s, a, b, j + 1);
      }
    }
  }

  /** `DigitRun` reads the same digits in a bordered slice as in the whole text. */
  lemma DigitRunInSlice(s: string, a: nat, b: nat, j: nat)
    requires Bordered(s, a, b) && a + j <= b
    ensures DigitRun(s[a..b], j) == DigitRun(s, a + j)
  {
    RunEndInSlice(s, a, b, j);
    var t, e := s[a..b], RunEnd(s[a..b], j);
    forall k | 0 <= k < e - j ensures t[j..e][k] == s[a + j..a + e][k] {
      assert t[j + k] == s[a + j + k];
    }
    assert t[j..e] == s[a + j..a + e];
  }

  /** Matches in a bordered slice are exactly the matches of the whole text, shifted by
      the slice's start. */
  lemma MatchesInSlice(s: string, a: nat, b: nat)
    requires Bordered(s, a, b)
    ensures forall j: nat {:trigger MatchesAt(s, j)} :: MatchesAt(s, j) ==> a <= j
    ensures forall i: nat {:trigger MatchesAt(s[a..b], i)} :: MatchesAt(s[a..b], i) <==> MatchesAt(s, a + i)
  {
    forall j: nat | MatchesAt(s, j) ensures j + 9 <= b {
      assert IsDigit(s[j + 8]);
    }
  }

  /** The leftmost match in a bordered slice is the leftmost match of the whole text. */
  lemma FirstMatchInSlice(s: string, a: nat, b: nat, i: nat)
    requires Bordered(s, a, b)
    requires FirstMatchFrom(s, 0, i)
    ensures a <= i && FirstMatchFrom(s[a..b], 0, i - a)
  {
    MatchesInSlice(s, a, b);
    assert MatchesAt(s, a + (i - a));
    forall j: nat | j < i - a ensures !MatchesAt(s[a..b], j) {
      assert !MatchesAt(s, a + j);
    }
  }

  /** A match in a bordered slice captures the same digits as in the whole text. */
  lemma GroupInSlice(s: string, a: nat, b: nat, i: nat)
    requires Bordered(s, a, b) && a <= i
    requires MatchesAt(s, i) && MatchesAt(s[a..b], i - a)
    ensures GroupAt(s[a..b], i - a) == GroupAt(s, i)
  {
    DigitRunInSlice(s, a, b, i - a + 8);
  }

  /** A bordered slice names the group of the whole text's leftmost match. */
  lemma ParseGroupOfSliceMatch(s: string, a: nat, b: nat, i: nat)
    requires Bordered(s, a, b) && FirstMatchFrom(s, 0, i)
    ensures ParseGroup(s[a..b]) == Some(GroupAt(s, i))
  {
    FirstMatchInSlice(s, a, b, i);
    ParseGroupIsLeftmostMatch(s[a..b], i - a);
    GroupInSlice(s, a, b, i);
  }

  /** A bordered slice of a text without a match has no match either. */
  lemma ParseGroupOfSliceNone(s: string, a: nat, b: nat)
    requires Bordered(s, a, b) && forall i: nat :: !MatchesAt(s, i)
    ensures ParseGroup(s[a..b]) == None
  {
    MatchesInSlice(s, a, b);
    assert FindMatch(s[a..b], 0).None?;
  }

  /** Cutting off text with no `G` on the left and no digit on the right never changes
      the group a field names. */
  lemma ParseGroupOfSlice(s: string, a: nat, b: nat)
    requires Bordered(s, a, b)
    ensures ParseGroup(s[a..b]) == ParseGroup(s)
  {
    var r := FindMatch(s, 0);
    if r.Some? {
      ParseGroupOfSliceMatch(s, a, b, r.value);
    } else {
      ParseGroupOfSliceNone(s, a, b);
    }
  }

  /** The stripped text is a bordered slice: only whitespace is cut off on either side. */
  lemma StripBordered(s: string)
    ensures var a := LeadingSpace(s);
            var b := a + |Strip(s)|;
            Bordered(s, a, b) && Strip(s) == s[a..b]
  {
    var a := LeadingSpace(s);
    var b := a + |Strip(s)|;
    StripSpec(s);
    assert forall k :: 0 <= k < a ==> s[..a][k] == s[k];
    assert forall k :: b <= k < |s| ==> s[b..][k - b] == s[k];
  }

  /** Stripping the field first never changes the group it names: a match starts with
      `G` and ends with a digit, so it lies inside the stripped text. */
  lemma ParseGroupOfStrip(s: string)
    ensures ParseGroup(Strip(s)) == ParseGroup(s)
  {
    var t := Strip(s);
    var a := LeadingSpace(s);
    var b := a + |t|;
    StripBordered(s);
    assert t == s[a..b];
    ParseGroupOfSlice(s, a, b);
    assert ParseGroup(t) == ParseGroup(s[a..b]);
  }

  // The cases the `.` in the pattern makes surprising.

  /** `.` consumes the first digit: "Gruppe 12" names group 2. */
  lemma TwoDigitsReadAsOne()
    ensures ParseGroup("Gruppe 12") == Some(2)
  {
    var s := "Gruppe 12";
    assert MatchesAt(s, 0);
    assert RunEnd(s, 8) == 9;
    assert DigitRun(s, 8) == "2";
  }

  /** With nothing after the single digit there is no match: "Gruppe 3" names no group. */
  lemma SingleDigitNoMatch()
    ensures ParseGroup("Gruppe 3") == None
  {
  }

  /** A filler letter and leading zeros: "Gruppe I2" and "Gruppe A02" both name group 2. */
  lemma FillerAndLeadingZero()
    ensures ParseGroup("Gruppe I2") == Some(2)
    ensures ParseGroup("Gruppe A02") == Some(2)
  {
    var s := "Gruppe I2";
    assert MatchesAt(s, 0);
    assert RunEnd(s, 8) == 9;
    assert DigitRun(s, 8) == "2";
    var u := "Gruppe A02";
    assert MatchesAt(u, 0);
    assert RunEnd(u, 9) == 10;
    assert RunEnd(u, 8) == 10;
    assert DigitRun(u, 8) == "02";
    LeadingZeroIgnored("2");
  }
}

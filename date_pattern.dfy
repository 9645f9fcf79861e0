/**
 * The date test of the JSON reviver in `#sendRawRequest`: a string is turned into a date
 * exactly when it has the shape `dddd-dd-ddTdd:dd:dd`, an optional fraction `.d+`, and an
 * optional zone that is either a run of ASCII letters or `+dd:dd`. `\d` is an ASCII digit
 * (the expression has no `u` flag) and `$` anchors at the very end (no `m` flag).
 */
module DatePattern {
  import opened Strings

  /** The fixed nineteen characters `dddd-dd-ddTdd:dd:dd`. */
  predicate DatePrefix(s: string) {
    && |s| >= 19
    && IsAsciiDigit(s[0]) && IsAsciiDigit(s[1]) && IsAsciiDigit(s[2]) && IsAsciiDigit(s[3])
    && s[4] == '-' && IsAsciiDigit(s[5]) && IsAsciiDigit(s[6])
    && s[7] == '-' && IsAsciiDigit(s[8]) && IsAsciiDigit(s[9])
    && s[10] == 'T' && IsAsciiDigit(s[11]) && IsAsciiDigit(s[12])
    && s[13] == ':' && IsAsciiDigit(s[14]) && IsAsciiDigit(s[15])
    && s[16] == ':' && IsAsciiDigit(s[17]) && IsAsciiDigit(s[18])
  }

  /** `(?:\.\d+)?` matches the whole of `f`. */
  predicate Fraction(f: string) {
    f == [] || (|f| >= 2 && f[0] == '.' && AllDigits(f[1..]))
  }

  predicate AllLetters(z: string) {
    forall i :: 0 <= i < |z| ==> IsAsciiLetter(z[i])
  }

  /** `\+\d{2}:\d{2}` matches the whole of `z`. */
  predicate PlusOffset(z: string) {
    |z| == 6 && z[0] == '+' && IsAsciiDigit(z[1]) && IsAsciiDigit(z[2]) && z[3] == ':'
    && IsAsciiDigit(z[4]) && IsAsciiDigit(z[5])
  }

  /** `(?:[a-zA-Z]+|\+\d{2}:\d{2})?` matches the whole of `z`. */
  predicate Zone(z: string) {
    z == [] || (|z| >= 1 && AllLetters(z)) || PlusOffset(z)
  }

  /** What the regular expression denotes: some split of the tail into a fraction and a zone. */
  ghost predicate MatchesDateSyntax(s: string) {
    DatePrefix(s) && exists k | 19 <= k <= |s| :: Fraction(s[19..k]) && Zone(s[k..])
  }

  /** The end of the run of digits that starts at `i`. */
  function DigitRunEnd(s: string, i: nat): (r: nat)
    requires i <= |s|
    ensures i <= r <= |s|
    ensures forall j :: i <= j < r ==> IsAsciiDigit(s[j])
    ensures r == |s| || !IsAsciiDigit(s[r])
    decreases |s| - i
  {
    if i < |s| && IsAsciiDigit(s[i]) then DigitRunEnd(s, i + 1) else i
  }

  /** A digit run ends at the first non-digit, so any such end is the end. */
  lemma {:induction false} DigitRunEndUnique(s: string, i: nat, k: nat)
    requires i <= k <= |s|
    requires forall j :: i <= j < k ==> IsAsciiDigit(s[j])
    requires k == |s| || !IsAsciiDigit(s[k])
    ensures DigitRunEnd(s, i) == k
    decreases k - i
  {
    if i < k {
      DigitRunEndUnique(s, i + 1, k);
    }
  }

  /** Where the fraction ends: after the digits that follow a `.`, or right after the seconds. */
  function FractionEnd(s: string): (k: nat)
    requires |s| >= 19
    ensures 19 <= k <= |s|
  {
    if |s| > 20 && s[19] == '.' && DigitRunEnd(s, 20) > 20 then DigitRunEnd(s, 20) else 19
  }

  /** The reviver's test, read left to right as the matcher does: prefix, greedy fraction, zone. */
  predicate IsDateText(s: string) {
    DatePrefix(s) && Zone(s[FractionEnd(s)..])
  }

  /** The left-to-right test accepts exactly the strings the expression denotes. */
  lemma IsDateTextMeansSyntax(s: string)
    ensures IsDateText(s) <==> MatchesDateSyntax(s)
  {
    if IsDateText(s) {
      var k := FractionEnd(s);
      if k > 19 {
        assert s[19..k][1..] == s[20..k];
        assert AllDigits(s[19..k][1..]);
      }
      assert Fraction(s[19..k]) && Zone(s[k..]);
    }
    if MatchesDateSyntax(s) {
      var k :| 19 <= k <= |s| && Fraction(s[19..k]) && Zone(s[k..]);
      FractionSplitUnique(s, k);
    }
  }

  /** The only split that works is the greedy one. */
  lemma FractionSplitUnique(s: string, k: nat)
    requires |s| >= 19 && 19 <= k <= |s|
    requires Fraction(s[19..k]) && Zone(s[k..])
    ensures k == FractionEnd(s)
  {
    var z := s[k..];
    assert z != [] ==> z[0] == s[k];
    assert z != [] ==> !IsAsciiDigit(z[0]) && z[0] != '.';
    if k > 19 {
      var f := s[19..k];
      assert f[0] == s[19] == '.';
      forall j | 20 <= j < k ensures IsAsciiDigit(s[j]) {
        assert s[j] == f[1..][j - 20];
      }
      DigitRunEndUnique(s, 20, k);
    }
  }

  /** Seconds followed by nothing, by a letter zone or by a `+hh:mm` offset: a date. */
  lemma {:induction false} AcceptsZones(s: string, z: string)
    requires |s| == 19 && DatePrefix(s) && Zone(z)
    ensures IsDateText(s + z)
  {
    var t := s + z;
    assert DatePrefix(t) by { assert t[..19] == s; }
    assert t[19..] == z;
    if z != [] {
      assert t[19] == z[0];
    }
  }

  /** A fraction of one or more digits before the zone is accepted too. */
  lemma {:induction false} AcceptsFraction(s: string, digits: string, z: string)
    requires |s| == 19 && DatePrefix(s) && |digits| >= 1 && AllDigits(digits) && Zone(z)
    ensures IsDateText(s + "." + digits + z)
  {
    var t := s + "." + digits + z;
    var k := 20 + |digits|;
    assert DatePrefix(t) by { assert t[..19] == s; }
    assert t[19] == '.';
    forall j | 20 <= j < k ensures IsAsciiDigit(t[j]) {
      assert t[j] == digits[j - 20];
    }
    assert t[k..] == z;
    if z != [] {
      assert t[k] == z[0];
    }
    DigitRunEndUnique(t, 20, k);
  }

  /**
   * An offset behind UTC, which RFC 3339 (section 5.6, `time-numoffset`) allows, is not
   * accepted: such a value stays a string.
   */
  lemma RejectsMinusOffset()
    ensures !IsDateText("2024-01-15T10:30:00-05:00")
  {
    var s := "2024-01-15T10:30:00-05:00";
    assert FractionEnd(s) == 19;
    assert s[19..][0] == '-';
  }

  /** A lower-case `t` separator, also allowed by RFC 3339, is not accepted either. */
  lemma RejectsLowerCaseSeparator()
    ensures !IsDateText("2024-01-15t10:30:00Z")
  {
  }

  /** A `.` must be followed by at least one digit. */
  lemma RejectsEmptyFraction()
    ensures !IsDateText("2024-01-15T10:30:00.Z")
  {
    var s := "2024-01-15T10:30:00.Z";
    assert DigitRunEnd(s, 20) == 20;
    assert s[19..][0] == '.';
  }
}

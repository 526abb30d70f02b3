/** The `MM:SS` clock text shared by the image quiz header and the crossword page. */
module TimeFormat {

  import opened Wrappers
  import opened Text

  /** `formatTime(seconds)`: whole minutes and the remaining seconds, each padded with zeros
      to at least two digits, separated by a colon. */
  function FormatTime(seconds: nat): (r: string)
    ensures |r| >= 5 && r[|r| - 3] == ':'
    ensures forall i :: 0 <= i < |r| && i != |r| - 3 ==> IsDigit(r[i])
  {
    ShortRendering(seconds % 60);
    PadStart(NatToString(seconds / 60), 2, '0') + ":" + PadStart(NatToString(seconds % 60), 2, '0')
  }

  /** Under 100 minutes the clock text is exactly `MM:SS`, five characters. */
  lemma FormatTimeFiveChars(seconds: nat)
    requires seconds < 6000
    ensures |FormatTime(seconds)| == 5
  {
    var m := seconds / 60;
    assert m < 100;
    ShortRendering(m);
    ShortRendering(seconds % 60);
  }

  /** Numbers below 100 take at most two digits. */
  lemma ShortRendering(n: nat)
    requires n < 100
    ensures |NatToString(n)| <= 2
  {
  }

  /** Every character but the third from the end is a digit. */
  predicate DigitsAroundColon(t: string) {
    forall i :: 0 <= i < |t| && i != |t| - 3 ==> IsDigit(t[i])
  }

  /** Reads a clock text back: digits, a colon, two digits of seconds below 60. */
  function ParseClock(t: string): Option<nat> {
    if |t| >= 3 && t[|t| - 3] == ':' && DigitsAroundColon(t) then
      var minutes, secs := ParseNat(t[..|t| - 3]), ParseNat(t[|t| - 2..]);
      if secs < 60 then Some(60 * minutes + secs) else None
    else None
  }

  /** The clock text loses nothing: reading it back gives the number of seconds shown. */
  lemma FormatTimeRoundTrip(seconds: nat)
    ensures ParseClock(FormatTime(seconds)) == Some(seconds)
  {
    var q, r := seconds / 60, seconds % 60;
    assert 60 * q + r == seconds;
    ClockOfParts(q, r);
    assert FormatTime(seconds) == PadStart(NatToString(q), 2, '0') + ":" + PadStart(NatToString(r), 2, '0');
  }

  /** The clock text of `q` minutes and `r < 60` seconds reads back as `60 * q + r`. */
  lemma ClockOfParts(q: nat, r: nat)
    requires r < 60
    ensures ParseClock(PadStart(NatToString(q), 2, '0') + ":" + PadStart(NatToString(r), 2, '0'))
            == Some(60 * q + r)
  {
    ShortRendering(r);
    ParseNatPadded(q, 2);
    ParseNatPadded(r, 2);
    ParseJoinedClock(PadStart(NatToString(q), 2, '0'), PadStart(NatToString(r), 2, '0'));
  }

  /** Reading `m:s` back, for digit strings `m` and two-digit `s` below 60. */
  lemma ParseJoinedClock(m: string, s: string)
    requires forall i :: 0 <= i < |m| ==> IsDigit(m[i])
    requires forall i :: 0 <= i < |s| ==> IsDigit(s[i])
    requires |s| == 2 && ParseNat(s) < 60
    ensures ParseClock(m + ":" + s) == Some(60 * ParseNat(m) + ParseNat(s))
  {
    JoinedClockShape(m, s);
    ParseShapedClock(m + ":" + s, m, s);
  }

  /** A text shaped as `m:s` with seconds below 60 reads back as `m` minutes and `s` seconds. */
  lemma ParseShapedClock(t: string, m: string, s: string)
    requires |t| >= 3 && t[|t| - 3] == ':' && t[..|t| - 3] == m && t[|t| - 2..] == s
    requires DigitsAroundColon(t) && ParseNat(s) < 60
    ensures ParseClock(t) == Some(60 * ParseNat(m) + ParseNat(s))
  {
  }

  /** The text `m:s` has its colon third from the end, `m` before it, `s` after it, and
      digits everywhere else. */
  lemma JoinedClockShape(m: string, s: string)
    requires forall i :: 0 <= i < |m| ==> IsDigit(m[i])
    requires forall i :: 0 <= i < |s| ==> IsDigit(s[i])
    requires |s| == 2
    ensures var t := m + ":" + s;
      && |t| >= 3 && t[|t| - 3] == ':' && t[..|t| - 3] == m && t[|t| - 2..] == s
      && DigitsAroundColon(t)
  {
    var t := m + ":" + s;
    assert t[..|t| - 3] == m;
    assert t[|t| - 2..] == s;
    forall i | 0 <= i < |t| && i != |t| - 3 ensures IsDigit(t[i]) {
      if i < |m| { assert t[i] == m[i]; } else { assert t[i] == s[i - |m| - 1]; }
    }
  }
}

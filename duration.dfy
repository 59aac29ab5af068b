/**
 * The duration label on a result card: a count of seconds shown as whole
 * minutes, a colon, and the remaining seconds padded to two digits.
 */
module Duration {
  import opened Wrappers
  import opened Strings

  /** Seconds as "M:SS": minutes unbounded, seconds always two digits. */
  function FormatDuration(seconds: nat): (r: string)
    ensures |r| >= 4 && r[|r| - 3] == ':'
    ensures r[..|r| - 3] == Decimal(seconds / 60)
    ensures AllDigits(r[|r| - 2..]) && DecimalValue(r[|r| - 2..]) == seconds % 60
  {
    var mins := seconds / 60;
    var secs := seconds % 60;
    var r := Decimal(mins) + ":" + (if secs < 10 then "0" else "") + Decimal(secs);
    assert r[..|r| - 3] == Decimal(mins);
    var ss := r[|r| - 2..];
    assert AllDigits(ss) && DecimalValue(ss) == secs by {
      if secs < 10 {
        assert ss == ['0', DigitChar(secs)];
        assert ss[..1] == ['0'] && ['0'][..0] == [];
      } else {
        assert ss == Decimal(secs);
        DecimalRoundTrip(secs);
      }
    }
    r
  }

  /**
   * Reads a "M:SS" label back: digits, a colon, then exactly two digits whose
   * value is below 60. Anything else is None.
   */
  function ParseDuration(t: string): (r: Option<nat>)
  {
    if |t| >= 4 && t[|t| - 3] == ':' && AllDigits(t[..|t| - 3]) && AllDigits(t[|t| - 2..])
       && DecimalValue(t[|t| - 2..]) < 60
    then Some(DecimalValue(t[..|t| - 3]) * 60 + DecimalValue(t[|t| - 2..]))
    else None
  }

  /** The label is read back as the number of seconds it was made from. */
  lemma FormatDurationRoundTrip(seconds: nat)
    ensures ParseDuration(FormatDuration(seconds)) == Some(seconds)
  {
    DecimalRoundTrip(seconds / 60);
  }

  /** Different durations never share a label. */
  lemma FormatDurationInjective(s1: nat, s2: nat)
    requires FormatDuration(s1) == FormatDuration(s2)
    ensures s1 == s2
  {
    FormatDurationRoundTrip(s1);
    FormatDurationRoundTrip(s2);
  }

  /**
   * Conversely, every label that parses and whose minutes carry no leading
   * zero is exactly the label of the duration it denotes.
   */
  lemma ParseDurationCanonical(t: string, seconds: nat)
    requires ParseDuration(t) == Some(seconds)
    requires IsCanonicalDecimal(t[..|t| - 3])
    ensures FormatDuration(seconds) == t
  {
    var m, ss := t[..|t| - 3], t[|t| - 2..];
    assert seconds / 60 == DecimalValue(m) && seconds % 60 == DecimalValue(ss);
    CanonicalDecimalRoundTrip(m);
    PaddedSeconds(ss);
    assert t == m + [':'] + ss;
  }

  /** Two digits below 60 are the padded rendering of their value. */
  lemma PaddedSeconds(ss: string)
    requires |ss| == 2 && AllDigits(ss) && DecimalValue(ss) < 60
    ensures var v := DecimalValue(ss); (if v < 10 then "0" else "") + Decimal(v) == ss
  {
    TwoDigitValue(ss);
    var v := DecimalValue(ss);
    if v < 10 {
      assert ss[0] == '0';
      assert Decimal(v) == [ss[1]];
    } else {
      DigitsDivMod(DigitValue(ss[0]), DigitValue(ss[1]));
      assert Decimal(v) == Decimal(v / 10) + [DigitChar(v % 10)];
    }
  }

  lemma DigitsDivMod(tens: nat, units: nat)
    requires units < 10
    ensures (tens * 10 + units) / 10 == tens && (tens * 10 + units) % 10 == units
  {
  }

  lemma TwoDigitValue(s: string)
    requires |s| == 2 && AllDigits(s)
    ensures DecimalValue(s) == DigitValue(s[0]) * 10 + DigitValue(s[1])
  {
    assert s[..1] == [s[0]] && s[..1][..0] == [];
    assert DecimalValue(s[..1]) == DigitValue(s[0]);
  }

  /** The worked examples: 65 s, 600 s and 5 s. */
  lemma FormatDurationExamples()
    ensures FormatDuration(65) == "1:05"
    ensures FormatDuration(600) == "10:00"
    ensures FormatDuration(5) == "0:05"
  {
  }
}

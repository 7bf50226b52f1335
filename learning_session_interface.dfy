/** The `formatTime` helper of views/components/LearningSessionInterface.tsx. */
module LearningSessionInterface {
  import opened Text
  import JsMath

  /** `formatTime(seconds)`: minutes and seconds, each left-padded with "0" to two characters. */
  function FormatTime(seconds: int): (s: string)
    ensures var mins := PadStart(IntToString(JsMath.FloorDiv(seconds, 60)), 2, '0');
            var secs := PadStart(IntToString(JsMath.Rem(seconds, 60)), 2, '0');
            s == mins + ":" + secs && |mins| >= 2 && |secs| >= 2
  {
    var mins := JsMath.FloorDiv(seconds, 60);
    var secs := JsMath.Rem(seconds, 60);
    PadStart(IntToString(mins), 2, '0') + ":" + PadStart(IntToString(secs), 2, '0')
  }

  /**
   * Under 100 minutes the display is exactly "MM:SS": five characters, a colon in the middle,
   * and the two fields read back as the minutes and the seconds below 60 that make up `seconds`.
   */
  lemma FormatTimeRoundTrip(seconds: int)
    requires 0 <= seconds < 6000
    ensures var s := FormatTime(seconds);
            |s| == 5 && s[2] == ':'
            && (forall i :: 0 <= i < 5 && i != 2 ==> IsDigit(s[i]))
            && DigitsValue(s[..2]) * 60 + DigitsValue(s[3..]) == seconds
            && DigitsValue(s[3..]) < 60
  {
    var m, r := seconds / 60, seconds % 60;
    PaddedTwoDigits(m);
    PaddedTwoDigits(r);
    var pm, pr := PadStart(NatToString(m), 2, '0'), PadStart(NatToString(r), 2, '0');
    FieldsOf(seconds);
    ClockJoin(pm, pr);
  }

  /** Between zero and 100 minutes the two fields are the padded quotient and remainder. */
  lemma FieldsOf(seconds: int)
    requires 0 <= seconds < 6000
    ensures FormatTime(seconds) == PadStart(NatToString(seconds / 60), 2, '0') + ":" + PadStart(NatToString(seconds % 60), 2, '0')
  {
    assert JsMath.FloorDiv(seconds, 60) == seconds / 60;
    assert JsMath.Rem(seconds, 60) == seconds % 60;
  }

  /** Two two-digit fields around a colon, and how to read them back. */
  lemma ClockJoin(pm: string, pr: string)
    requires |pm| == 2 && |pr| == 2
    requires forall i :: 0 <= i < 2 ==> IsDigit(pm[i]) && IsDigit(pr[i])
    ensures var s := pm + ":" + pr;
            |s| == 5 && s[2] == ':' && (forall i :: 0 <= i < 5 && i != 2 ==> IsDigit(s[i]))
            && s[..2] == pm && s[3..] == pr
  {
    var s := pm + ":" + pr;
    assert s[..2] == pm && s[3..] == pr;
  }

  /** Past 99 minutes the minutes field grows instead of being cut to two characters. */
  lemma LongSessionsKeepAllDigits()
    ensures FormatTime(6000) == "100:00"
  {
    PaddedTwoDigits(0);
  }
}

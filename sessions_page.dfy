/** The `formatDuration` helper local to app/sessions/page.tsx. */
module SessionsPage {
  import opened Text
  import JsMath

  /**
   * `formatDuration(minutes)`: "Hh Mm" when there is at least one whole hour, even with no
   * leftover minutes, and "Mm" otherwise; neither figure is zero-padded.
   */
  function FormatDuration(minutes: int): (s: string)
    ensures var hours := JsMath.FloorDiv(minutes, 60);
            var mins := JsMath.Rem(minutes, 60);
            (hours > 0 ==> s == IntToString(hours) + "h " + IntToString(mins) + "m")
            && (hours <= 0 ==> s == IntToString(mins) + "m")
  {
    var hours := JsMath.FloorDiv(minutes, 60);
    var mins := JsMath.Rem(minutes, 60);
    if hours > 0 then IntToString(hours) + "h " + IntToString(mins) + "m"
    else IntToString(mins) + "m"
  }

  /** A whole number of hours still shows its "0m", and short durations show minutes only. */
  lemma WholeHoursKeepMinutes()
    ensures FormatDuration(120) == "2h 0m"
    ensures FormatDuration(5) == "5m"
    ensures FormatDuration(65) == "1h 5m"
  {
  }

  /** For non-negative durations the text determines the number of minutes. */
  lemma FormatDurationInjective(m: int, n: int)
    requires m >= 0 && n >= 0
    requires FormatDuration(m) == FormatDuration(n)
    ensures m == n
  {
    var s := FormatDuration(m);
    JsMath.DivRemSplit(m, 60);
    JsMath.DivRemSplit(n, 60);
    var hm, rm, hn, rn := m / 60, m % 60, n / 60, n % 60;
    HourForm(hm, rm);
    HourForm(hn, rn);
    MinutesOnlyHasNoHour(rn, |NatToString(hm)|);
    MinutesOnlyHasNoHour(rm, |NatToString(hn)|);
    if hm > 0 && hn > 0 {
      NumberThenSeparator(hm, hn, 'h', " " + NatToString(rm) + "m", " " + NatToString(rn) + "m");
      var t := " " + NatToString(rm) + "m";
      assert NatToString(rm) == t[1..|t| - 1] == NatToString(rn);
      NatToStringInjective(rm, rn);
    } else if hm == 0 && hn == 0 {
      assert NatToString(rm) == s[..|s| - 1] == NatToString(rn);
      NatToStringInjective(rm, rn);
    }
  }

  lemma HourForm(h: nat, r: nat)
    ensures var s := IntToString(h) + "h " + IntToString(r) + "m";
            s == NatToString(h) + ['h'] + (" " + NatToString(r) + "m") && s[|NatToString(h)|] == 'h'
  {
  }

  /** The minutes-only form has no 'h' anywhere. */
  lemma MinutesOnlyHasNoHour(r: nat, k: nat)
    ensures var s := IntToString(r) + "m";
            k < |s| ==> s[k] != 'h'
  {
  }

  /**
   * Negative durations, which the page never expects, run together: the hour count is not
   * positive, so only the truncated remainder is shown.
   */
  lemma NegativeDurationsCollide()
    ensures FormatDuration(-5) == FormatDuration(-65) == "-5m"
  {
  }
}

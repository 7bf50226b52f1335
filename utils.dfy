/** The display helpers and subject tables of lib/utils.ts. */
module Utils {
  import opened Text
  import opened Time
  import JsMath

  /** The subjects a companion can teach. */
  const Subjects: seq<string> := ["maths", "language", "science", "history", "coding", "economics"]

  /** The badge colour of each subject. */
  const SubjectsColors: map<string, string> :=
    map["science" := "#E5D0FF", "maths" := "#FFDA6E", "language" := "#BDE7FF",
        "coding" := "#FFC8E4", "history" := "#FFECC8", "economics" := "#C8FFDF"]

  const FallbackColor: string := "#f3f4f6"

  /** The subject list and the colour table name the same six subjects, each listed once. */
  lemma SubjectsMatchColors()
    ensures (set s | s in Subjects) == SubjectsColors.Keys
    ensures |Subjects| == 6 && forall i, j :: 0 <= i < j < |Subjects| ==> Subjects[i] != Subjects[j]
  {
  }

  /** `getSubjectColor`: the table colour, or the neutral grey for a subject not in the table. */
  function GetSubjectColor(subject: string): (color: string)
    ensures subject in SubjectsColors ==> color == SubjectsColors[subject]
    ensures subject !in SubjectsColors ==> color == FallbackColor
    ensures color != ""
  {
    if subject in SubjectsColors && SubjectsColors[subject] != "" then SubjectsColors[subject] else FallbackColor
  }

  /** Every listed subject has a colour of its own, different from the fallback. */
  lemma ListedSubjectsAreColored(i: nat)
    requires i < |Subjects|
    ensures GetSubjectColor(Subjects[i]) != FallbackColor
  {
  }

  /**
   * `formatDuration(minutes)`: "m min" under an hour; otherwise whole hours "Hh", with the
   * leftover minutes " Mm" appended when there are any.
   */
  function FormatDuration(minutes: int): (s: string)
    ensures minutes < 60 ==> s == IntToString(minutes) + " min"
    ensures minutes >= 60 && minutes % 60 == 0 ==> s == NatToString(minutes / 60) + "h"
    ensures minutes >= 60 && minutes % 60 != 0 ==> s == NatToString(minutes / 60) + "h " + NatToString(minutes % 60) + "m"
  {
    if minutes < 60 then IntToString(minutes) + " min"
    else
      var hours := JsMath.FloorDiv(minutes, 60);
      var remainingMinutes := JsMath.Rem(minutes, 60);
      if remainingMinutes == 0 then NatToString(hours) + "h"
      else NatToString(hours) + "h " + NatToString(remainingMinutes) + "m"
  }

  /** Different durations are never displayed alike: the text determines the number of minutes. */
  lemma FormatDurationInjective(m: int, n: int)
    requires FormatDuration(m) == FormatDuration(n)
    ensures m == n
  {
    var s := FormatDuration(m);
    DurationLastChar(m);
    DurationLastChar(n);
    if m < 60 && n < 60 {
      assert IntToString(m) == s[..|s| - 4] == IntToString(n);
      IntToStringInjective(m, n);
    } else if m >= 60 && n >= 60 {
      if m % 60 == 0 && n % 60 == 0 {
        assert NatToString(m / 60) == s[..|s| - 1] == NatToString(n / 60);
        NatToStringInjective(m / 60, n / 60);
      } else if m % 60 != 0 && n % 60 != 0 {
        HourForm(m / 60, m % 60);
        HourForm(n / 60, n % 60);
        NumberThenSeparator(m / 60, n / 60, 'h', " " + NatToString(m % 60) + "m", " " + NatToString(n % 60) + "m");
        var t := " " + NatToString(m % 60) + "m";
        assert NatToString(m % 60) == t[1..|t| - 1] == NatToString(n % 60);
        NatToStringInjective(m % 60, n % 60);
      }
    }
  }

  /** The last character of the text tells which of the three forms it has. */
  lemma DurationLastChar(m: int)
    ensures var s := FormatDuration(m);
            s[|s| - 1] == (if m < 60 then 'n' else if m % 60 == 0 then 'h' else 'm')
  {
  }

  lemma HourForm(h: nat, r: nat)
    ensures NatToString(h) + "h " + NatToString(r) + "m" == NatToString(h) + ['h'] + (" " + NatToString(r) + "m")
  {
  }

  /** What `formatDate` is given: nothing, a number of milliseconds, a string, or a `Date`. */
  datatype DateArgument = NoDate | NumberDate(ms: int) | StringDate(text: string) | DateObject(date: Instant)

  /** How `formatDate` ends: one of its two fixed texts, or the locale formatting it hands over to. */
  datatype DateDisplay = UnknownDate | InvalidDateText | LocaleDate(ms: TimeValue) | ParsedDate(text: string)

  /** JavaScript truthiness of the argument: `null`, `undefined`, `0` and `""` are falsy. */
  predicate IsFalsy(d: DateArgument)
  {
    d.NoDate? || d == NumberDate(0) || d == StringDate("")
  }

  /**
   * `formatDate`: "Unknown date" for a falsy argument, "Invalid date" for a `Date` whose time
   * value is NaN, otherwise the locale text of the date; parsing a date string is left to the
   * runtime.
   */
  function FormatDate(d: DateArgument): (r: DateDisplay)
    ensures r.UnknownDate? <==> IsFalsy(d)
    ensures d.NumberDate? && d.ms != 0 ==> (r.InvalidDateText? <==> MakeDate(d.ms).InvalidDate?)
    ensures d.DateObject? ==> (r.InvalidDateText? <==> d.date.InvalidDate?)
  {
    if IsFalsy(d) then UnknownDate
    else match d
      case NumberDate(ms) => (var instant := MakeDate(ms); if instant.InvalidDate? then InvalidDateText else LocaleDate(instant.ms))
      case StringDate(text) => ParsedDate(text)
      case DateObject(date) => if date.InvalidDate? then InvalidDateText else LocaleDate(date.ms)
  }

  /** The epoch itself, passed as the number 0, is reported as an unknown date. */
  lemma EpochIsUnknown()
    ensures FormatDate(NumberDate(0)) == UnknownDate
    ensures FormatDate(DateObject(At(0))) == LocaleDate(0)
  {
  }
}

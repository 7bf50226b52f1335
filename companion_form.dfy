/** The `companionSchema` validator and the defaults of views/forms/CompanionForm.tsx. */
module CompanionForm {
  import opened Wrappers
  import opened Companions

  /** The raw form values; `instructions` and `isPublic` may be left out. */
  datatype FormInput = FormInput(
    name: string,
    subject: string,
    topic: string,
    voice: string,
    style: string,
    duration: int,
    instructions: Option<string>,
    isPublic: Option<bool>)

  /** The messages of a string that must have between `min` and `max` characters. */
  function LengthIssues(s: string, min: nat, max: nat, tooShort: string, tooLong: string): (issues: seq<string>)
    ensures issues == [] <==> min <= |s| <= max
  {
    (if |s| < min then [tooShort] else []) + (if |s| > max then [tooLong] else [])
  }

  /** The messages of a string that must not be empty. */
  function RequiredIssues(s: string, message: string): (issues: seq<string>)
    ensures issues == [] <==> |s| >= 1
  {
    if |s| < 1 then [message] else []
  }

  function DurationIssues(duration: int): (issues: seq<string>)
    ensures issues == [] <==> 5 <= duration <= 120
  {
    (if duration < 5 then ["Minimum 5 minutes"] else []) + (if duration > 120 then ["Maximum 120 minutes"] else [])
  }

  /** Every failed check's message, field by field in the order the schema lists them. */
  function Issues(f: FormInput): (issues: seq<string>)
  {
    LengthIssues(f.name, 1, 100, "Name is required", "Name too long")
    + RequiredIssues(f.subject, "Subject is required")
    + LengthIssues(f.topic, 1, 200, "Topic is required", "Topic too long")
    + RequiredIssues(f.voice, "Voice is required")
    + RequiredIssues(f.style, "Style is required")
    + DurationIssues(f.duration)
  }

  /** The bounds `companionSchema` places on the form. */
  predicate WithinBounds(f: FormInput)
  {
    1 <= |f.name| <= 100 && |f.subject| >= 1 && 1 <= |f.topic| <= 200
    && |f.voice| >= 1 && |f.style| >= 1 && 5 <= f.duration <= 120
  }

  /**
   * `companionSchema.safeParse`: the data for `createCompanion`, with `isPublic` defaulted to
   * false, or every message of a failed check.
   */
  function Validate(f: FormInput): (r: Result<CreateCompanionData, seq<string>>)
    ensures r.Ok? <==> WithinBounds(f)
    ensures r.Err? ==> |r.error| > 0 && r.error == Issues(f)
    ensures r.Ok? ==> r.value == CreateCompanionData(f.name, f.subject, f.topic, f.voice, f.style, f.duration,
                                                     Some(f.isPublic == Some(true)), f.instructions)
  {
    var issues := Issues(f);
    if issues == [] then
      Ok(CreateCompanionData(f.name, f.subject, f.topic, f.voice, f.style, f.duration,
                             Some(if f.isPublic.Some? then f.isPublic.value else false), f.instructions))
    else Err(issues)
  }

  /** The values the form starts with. */
  const DefaultDuration: int := 30
  const DefaultIsPublic: bool := false

  /**
   * The form's defaults satisfy the schema: filled in with acceptable text fields they pass,
   * and the companion they describe is private.
   */
  lemma DefaultsSatisfySchema(name: string, subject: string, topic: string, voice: string, style: string)
    requires 1 <= |name| <= 100 && |subject| >= 1 && 1 <= |topic| <= 200 && |voice| >= 1 && |style| >= 1
    ensures var r := Validate(FormInput(name, subject, topic, voice, style, DefaultDuration, None, Some(DefaultIsPublic)));
            r.Ok? && r.value.isPublic == Some(false) && r.value.duration == 30
  {
  }

  /** An empty name is reported first, whatever else is wrong. */
  lemma EmptyNameReportedFirst(f: FormInput)
    requires f.name == ""
    ensures Validate(f).Err? && Validate(f).error[0] == "Name is required"
  {
  }
}

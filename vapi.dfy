/** The assistant instructions and voice configuration of the Vapi service (lib/vapi.ts). */
module Vapi {
  import opened Text

  /** The companion fields `generateInstructions` reads. */
  datatype CompanionBrief = CompanionBrief(name: string, subject: string, topic: string, style: string, duration: int)

  /*
   * The base instructions are one template; each function below is the template from one
   * placeholder on, so that each field appears between two fixed pieces.
   */

  /** The base instructions: `You are ${name}, an AI tutor specializing in ${subject}.` and the rest. */
  function BaseInstructions(c: CompanionBrief): string
  {
    "You are " + c.name + AfterName(c)
  }

  function AfterName(c: CompanionBrief): string
  {
    ", an AI tutor specializing in " + c.subject + AfterSubject(c)
  }

  function AfterSubject(c: CompanionBrief): string
  {
    RoleIntro + c.subject + " tutor with a " + c.style + AfterStyle(c)
  }

  function AfterStyle(c: CompanionBrief): string
  {
    SpecialtyIntro + c.topic + AfterTopic(c)
  }

  /** `${duration}` prints an integral number of minutes in decimal. */
  function AfterTopic(c: CompanionBrief): string
  {
    "\n- You conduct " + IntToString(c.duration) + AfterDuration(c)
  }

  function AfterDuration(c: CompanionBrief): string
  {
    ApproachIntro + c.subject + Closing
  }

  const RoleIntro: string := ".\n\nYour role:\n- You are an expert "

  const SpecialtyIntro: string := " teaching style\n- Your specialty is "

  const ApproachIntro: string :=
    "-minute learning sessions\n"
    + "- You adapt to the student's learning pace and style\n"
    + "\n"
    + "Teaching approach:\n"
    + "- Start by assessing the student's current knowledge level\n"
    + "- Break down complex concepts into digestible parts\n"
    + "- Use examples and analogies relevant to "

  const Closing: string :=
    "\n"
    + "- Encourage questions and provide clear explanations\n"
    + "- Give positive reinforcement and constructive feedback\n"
    + "- End sessions with a summary of key learnings\n"
    + "\n"
    + "Session structure:\n"
    + "1. Greet the student and introduce the topic\n"
    + "2. Assess their current understanding\n"
    + "3. Teach new concepts step by step\n"
    + "4. Practice with examples or exercises\n"
    + "5. Answer questions and clarify doubts\n"
    + "6. Summarize the session and suggest next steps\n"
    + "\n"
    + "Remember:\n"
    + "- Keep the session engaging and interactive\n"
    + "- Adjust your pace based on student responses\n"
    + "- Be patient and encouraging\n"
    + "- Focus on understanding rather than memorization\n"
    + "- Make learning enjoyable and accessible"

  const CasualStyle: string :=
    "\n"
    + "\n"
    + "Communication style:\n"
    + "- Use friendly, conversational language\n"
    + "- Include humor when appropriate\n"
    + "- Be relatable and approachable\n"
    + "- Use everyday examples and analogies\n"
    + "- Encourage a relaxed learning environment"

  const FormalStyle: string :=
    "\n"
    + "\n"
    + "Communication style:\n"
    + "- Use professional, academic language\n"
    + "- Maintain a structured approach\n"
    + "- Focus on precision and accuracy\n"
    + "- Use formal examples and terminology\n"
    + "- Emphasize academic rigor and excellence"

  /** The block `generateInstructions` appends for a teaching style. */
  function StyleBlock(style: string): (b: string)
    ensures |b| > 0
  {
    if style == "casual" then CasualStyle else FormalStyle
  }

  /** `generateInstructions`: the base instructions followed by the block for the teaching style. */
  function GenerateInstructions(c: CompanionBrief): (r: string)
    ensures |BaseInstructions(c)| < |r|
  {
    BaseInstructions(c) + StyleBlock(c.style)
  }

  /** The instructions always begin with the base instructions. */
  lemma InstructionsBeginWithBase(c: CompanionBrief)
    ensures StartsWith(GenerateInstructions(c), BaseInstructions(c))
  {
    SelfStartsWith(BaseInstructions(c));
    StartsWithAppend(BaseInstructions(c), StyleBlock(c.style), BaseInstructions(c));
  }

  /** The casual block is appended exactly for the style "casual"; every other style gets the formal block. */
  lemma StyleBlockIffCasual(style: string)
    ensures StyleBlock(style) == CasualStyle <==> style == "casual"
    ensures StyleBlock(style) == FormalStyle <==> style != "casual"
  {
    assert |CasualStyle| == 208 && |FormalStyle| == 207;
  }

  /** The instructions begin with "You are " and the companion's name. */
  lemma InstructionsStartWithName(c: CompanionBrief)
    ensures StartsWith(GenerateInstructions(c), "You are " + c.name)
  {
    var p := "You are " + c.name;
    SelfStartsWith(p);
    StartsWithAppend(p, AfterName(c), p);
    StartsWithAppend(BaseInstructions(c), StyleBlock(c.style), p);
  }

  /* Whatever a later part of the template contains, the instructions contain. */

  lemma FromBase(c: CompanionBrief, sub: string)
    requires Contains(BaseInstructions(c), sub)
    ensures Contains(GenerateInstructions(c), sub)
  {
    PrefixContains(BaseInstructions(c), StyleBlock(c.style), sub);
  }

  lemma FromAfterName(c: CompanionBrief, sub: string)
    requires Contains(AfterName(c), sub)
    ensures Contains(GenerateInstructions(c), sub)
  {
    SuffixContains("You are " + c.name, AfterName(c), sub);
    FromBase(c, sub);
  }

  lemma FromAfterSubject(c: CompanionBrief, sub: string)
    requires Contains(AfterSubject(c), sub)
    ensures Contains(GenerateInstructions(c), sub)
  {
    SuffixContains(", an AI tutor specializing in " + c.subject, AfterSubject(c), sub);
    FromAfterName(c, sub);
  }

  lemma FromAfterStyle(c: CompanionBrief, sub: string)
    requires Contains(AfterStyle(c), sub)
    ensures Contains(GenerateInstructions(c), sub)
  {
    SuffixContains(RoleIntro + c.subject + " tutor with a " + c.style, AfterStyle(c), sub);
    FromAfterSubject(c, sub);
  }

  lemma FromAfterTopic(c: CompanionBrief, sub: string)
    requires Contains(AfterTopic(c), sub)
    ensures Contains(GenerateInstructions(c), sub)
  {
    SuffixContains(SpecialtyIntro + c.topic, AfterTopic(c), sub);
    FromAfterStyle(c, sub);
  }

  /** The instructions mention the companion's name, subject, style, topic and duration. */
  lemma InstructionsMentionCompanion(c: CompanionBrief)
    ensures var r := GenerateInstructions(c);
            Contains(r, c.name) && Contains(r, c.subject) && Contains(r, c.style)
            && Contains(r, c.topic) && Contains(r, IntToString(c.duration))
  {
    ContainsMiddle("You are ", c.name, AfterName(c));
    FromBase(c, c.name);
    ContainsMiddle(", an AI tutor specializing in ", c.subject, AfterSubject(c));
    FromAfterName(c, c.subject);
    ContainsMiddle(RoleIntro + c.subject + " tutor with a ", c.style, AfterStyle(c));
    FromAfterSubject(c, c.style);
    ContainsMiddle(SpecialtyIntro, c.topic, AfterTopic(c));
    FromAfterStyle(c, c.topic);
    ContainsMiddle("\n- You conduct ", IntToString(c.duration), AfterDuration(c));
    FromAfterTopic(c, IntToString(c.duration));
  }

  /** A voice configuration handed to the assistant. */
  datatype VoiceConfig = VoiceConfig(provider: string, voiceId: string)

  const FemaleVoice := VoiceConfig("11labs", "sarah")
  const MaleVoice := VoiceConfig("11labs", "adam")

  /** `getVoiceConfig`: the table entry for "female" or "male", otherwise the female entry. */
  function GetVoiceConfig(voiceType: string): (v: VoiceConfig)
    ensures v.provider == "11labs"
    ensures v == MaleVoice <==> voiceType == "male"
    ensures v == FemaleVoice <==> voiceType != "male"
  {
    if voiceType == "male" then MaleVoice else FemaleVoice
  }

  /** Any voice type but "male" is configured exactly like "female". */
  lemma UnknownVoiceIsFemale(voiceType: string)
    requires voiceType != "male"
    ensures GetVoiceConfig(voiceType) == GetVoiceConfig("female")
  {
  }
}

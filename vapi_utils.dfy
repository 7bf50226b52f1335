/** The voice selection of the browser-side assistant configuration (lib/vapi-utils.ts). */
module VapiUtils {
  /** The `voices` table: voice, then teaching style, to an ElevenLabs voice id. */
  const Voices: map<string, map<string, string>> :=
    map["male" := map["casual" := "2BJW5coyhAzSr8STdHbE", "formal" := "c6SfcYrb2t09NHXiT80T"],
        "female" := map["casual" := "ZIlrSGI4jZqobxRKprJz", "formal" := "sarah"]]

  const DefaultVoiceId: string := "sarah"

  /**
   * The returned `CreateAssistantDTO` without the floating-point voice and model tuning and the
   * `useSpeakerBoost` flag.
   */
  datatype AssistantConfig = AssistantConfig(
    name: string,
    firstMessage: string,
    firstMessageMode: string,
    transcriberProvider: string,
    transcriberModel: string,
    transcriberLanguage: string,
    voiceProvider: string,
    voiceId: string,
    modelProvider: string,
    model: string,
    systemMessage: string,
    maxTokens: nat)

  const Greeting: string :=
    "Hello! I'm your AI tutor. I'm excited to start our learning session together. Let's begin!"

  const SystemPrompt: string :=
    "You are a helpful AI tutor. Keep your responses short and conversational. Always be encouraging and speak naturally. Start the conversation immediately when the session begins."

  /** Every voice id in the table is non-empty, so the `|| "sarah"` fallback only covers a missing style. */
  lemma VoiceIdsNonEmpty(voice: string, style: string)
    requires voice in Voices && style in Voices[voice]
    ensures Voices[voice][style] != ""
  {
  }

  /**
   * The voice id `configureAssistant` settles on: `voiceId` starts as "sarah" and is replaced
   * by the table entry when there is one.
   */
  method SelectVoiceId(voice: string, style: string) returns (voiceId: string)
    ensures voice in Voices && style in Voices[voice] ==> voiceId == Voices[voice][style]
    ensures voice !in Voices ==> voiceId == DefaultVoiceId
    ensures voice in Voices && style !in Voices[voice] ==> voiceId == DefaultVoiceId
  {
    voiceId := DefaultVoiceId;
    if voice in Voices {
      var voiceConfig := Voices[voice];
      if style in voiceConfig && voiceConfig[style] != "" {
        voiceId := voiceConfig[style];
      } else {
        voiceId := DefaultVoiceId;
      }
    }
  }

  /** `configureAssistant`: the selected voice id is the one the configuration carries. */
  method ConfigureAssistant(voice: string, style: string) returns (a: AssistantConfig)
    ensures voice in Voices && style in Voices[voice] ==> a.voiceId == Voices[voice][style]
    ensures !(voice in Voices && style in Voices[voice]) ==> a.voiceId == DefaultVoiceId
    ensures a.voiceProvider == "11labs" && a.transcriberProvider == "deepgram" && a.transcriberModel == "nova-2"
    ensures a.modelProvider == "openai" && a.model == "gpt-4o-mini" && a.maxTokens == 150 && a.name == "AI Tutor"
    ensures a.firstMessage == Greeting && a.firstMessageMode == "assistant-speaks-first"
    ensures a.transcriberLanguage == "en-US" && a.systemMessage == SystemPrompt
  {
    var voiceId := SelectVoiceId(voice, style);
    a := AssistantConfig("AI Tutor", Greeting, "assistant-speaks-first", "deepgram", "nova-2", "en-US", "11labs", voiceId,
                         "openai", "gpt-4o-mini", SystemPrompt, 150);
  }
}

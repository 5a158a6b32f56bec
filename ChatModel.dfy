/**
 * The values the chat screen works with: messages, personas (system
 * prompts), saved chats, the model life-cycle state, the description of a
 * loaded model, the text-to-speech languages, the downloadable-model
 * catalogue entry and the key-value preference store.
 */
module ChatModel {
  import opened Wrappers

  /**
   * One chat line. `sender` is "You" for the user and "Bot" for the model;
   * `isStreaming` marks the reply placeholder that is still waiting for the
   * engine. The creation timestamp is not modelled.
   */
  datatype Message = Message(
    id: int,
    sender: string,
    text: string,
    isError: bool,
    isStreaming: bool)

  /** The user's line of a turn: the trimmed input, settled from the start. */
  function UserMessage(id: int, text: string): Message {
    Message(id, "You", text, false, false)
  }

  /** The reply placeholder of a turn: empty and streaming until the engine answers. */
  function Placeholder(id: int): Message {
    Message(id, "Bot", "", false, true)
  }

  /** A persona: instruction text put in front of every prompt. */
  datatype SystemPrompt = SystemPrompt(id: int, name: string, content: string)

  /** A saved conversation (its creation timestamp is not modelled). */
  datatype ChatHistory = ChatHistory(id: int, name: string, messages: seq<Message>)

  /** The life-cycle state of the single on-device model. */
  datatype ModelState = Idle | Loading | Loaded | Error | Generating

  /** A live inference-engine instance, known by an opaque handle. */
  datatype Engine = Engine(handle: nat)

  /** The model file in use (its load timestamp is not modelled). */
  datatype ModelInfo = ModelInfo(name: string, path: string, size: string)

  /** A catalogue entry of the model store. */
  datatype DownloadableModel = DownloadableModel(
    name: string,
    description: string,
    url: string,
    size: string)

  /** The text-to-speech languages, in declaration order. */
  datatype TtsLanguage = English | Hindi {
    function Code(): string {
      match this
      case English => "en"
      case Hindi => "hi"
    }
  }

  /** `TTSLanguage.values()`. */
  const TtsLanguages: seq<TtsLanguage> := [English, Hindi]

  /** The personas a fresh chat screen starts with. */
  const DefaultPersonas: seq<SystemPrompt> := [
    SystemPrompt(1, "Orbit Assistant", "You are Orbit, a friendly and helpful AI assistant. Your goal is to provide clear, accurate, and concise information. Be conversational and engaging."),
    SystemPrompt(2, "Code Generator", "You are an expert programmer. You provide high-quality, efficient, and well-documented code. When asked for code, provide a complete, runnable example."),
    SystemPrompt(3, "Creative Writer", "You are a master storyteller. Your task is to craft imaginative, vivid, and emotionally resonant stories, poems, or scripts. Use rich language and imagery."),
    SystemPrompt(4, "Summarizer", "You are a skilled summarizer. Condense long texts into short, easy-to-understand summaries, capturing the key points."),
    SystemPrompt(5, "ELI5", "You explain complex topics simply, using analogies and avoiding jargon, as if talking to a five-year-old."),
    SystemPrompt(6, "Roleplayer", "You are a versatile roleplaying character. Adopt the persona given by the user and act out scenarios. Stay in character.")
  ]

  /**
   * The state every model-load callback moves to: `Loaded` when the
   * reported error is null, `Error` otherwise (a progress text reported
   * through the error slot included).
   */
  function StateAfterLoad(error: Option<string>): (s: ModelState)
    ensures s == Loaded <==> error.None?
    ensures s == Error <==> error.Some?
  {
    if error.None? then Loaded else Error
  }

  /** `values.find { it.code == code }`: the first language with that code. */
  function FindLanguage(values: seq<TtsLanguage>, code: string): (r: Option<TtsLanguage>)
    ensures r.Some? ==> r.value in values && r.value.Code() == code
    ensures r.None? <==> forall i :: 0 <= i < |values| ==> values[i].Code() != code
  {
    if |values| == 0 then None
    else if values[0].Code() == code then Some(values[0])
    else FindLanguage(values[1..], code)
  }

  /**
   * The language restored from a stored code, English when no language has
   * that code. Storing a language's code and reading it back gives the same
   * language.
   */
  function TtsLanguageFor(code: string): (r: TtsLanguage)
    ensures forall l: TtsLanguage :: l.Code() == code ==> r == l
    ensures (forall l: TtsLanguage :: l.Code() != code) ==> r == English
  {
    // the codes already differ in their first letter
    assert English.Code()[0] != Hindi.Code()[0];
    FindLanguage(TtsLanguages, code).GetOr(English)
  }

  /** `SharedPreferences`, reduced to its string and boolean entries. */
  datatype Preferences = Preferences(strings: map<string, string>, bools: map<string, bool>)

  const SavedModelPathKey := "saved_model_path"
  const SavedModelNameKey := "saved_model_name"
  const TtsLanguageKey := "tts_language"
  const AutoSpeakKey := "auto_speak_responses"

  /** `getString(key, default)`. */
  function GetString(p: Preferences, key: string, default: Option<string>): (r: Option<string>)
    ensures key in p.strings ==> r == Some(p.strings[key])
    ensures key !in p.strings ==> r == default
  {
    if key in p.strings then Some(p.strings[key]) else default
  }

  /** `getBoolean(key, default)`. */
  function GetBool(p: Preferences, key: string, default: bool): (r: bool)
    ensures key in p.bools ==> r == p.bools[key]
    ensures key !in p.bools ==> r == default
  {
    if key in p.bools then p.bools[key] else default
  }

  /** `edit().putString(key, value).apply()`; writing null removes the entry. */
  function PutString(p: Preferences, key: string, value: Option<string>): (q: Preferences)
    ensures forall d :: GetString(q, key, d) == if value.Some? then value else d
    ensures forall k, d :: k != key ==> GetString(q, k, d) == GetString(p, k, d)
    ensures q.bools == p.bools
  {
    match value
    case Some(v) => p.(strings := p.strings[key := v])
    case None => p.(strings := p.strings - {key})
  }

  /** `edit().putBoolean(key, value).apply()`. */
  function PutBool(p: Preferences, key: string, value: bool): (q: Preferences)
    ensures forall d :: GetBool(q, key, d) == value
    ensures forall k, d :: k != key ==> GetBool(q, k, d) == GetBool(p, k, d)
    ensures q.strings == p.strings
  {
    p.(bools := p.bools[key := value])
  }

  /**
   * The text-to-speech language restored at start-up: the stored code read
   * with English's code as default, looked up among the languages, English
   * when none has that code.
   */
  function RestoredTtsLanguage(p: Preferences): (l: TtsLanguage)
    ensures GetString(p, TtsLanguageKey, None).None? ==> l == English
    ensures forall x: TtsLanguage :: GetString(p, TtsLanguageKey, None) == Some(x.Code()) ==> l == x
    ensures (forall x: TtsLanguage :: GetString(p, TtsLanguageKey, None) != Some(x.Code())) ==> l == English
  {
    TtsLanguageFor(GetString(p, TtsLanguageKey, Some(English.Code())).GetOr(English.Code()))
  }

  /** A language stored from the settings is the language restored on the next start. */
  lemma TtsLanguageRestored(p: Preferences, language: TtsLanguage)
    ensures RestoredTtsLanguage(PutString(p, TtsLanguageKey, Some(language.Code()))) == language
  {
  }
}

// lib/ai.ts: the gateway to the hosted language model. Whether the API key
// is set, what the model call yields and what `JSON.parse` decodes are
// parameters; each function returns the model call it makes (if any) with
// the value it returns. None of them can throw: every failure becomes text
// or the fixed three-track list.

module Ai {
  import opened Wrappers
  import opened Errors

  const ModelName := "llama3-70b-8192"

  /** One `generateText` request: model, prompt, optional system text, token budget. */
  datatype ModelCall = ModelCall(model: string, prompt: string, system: Option<string>, maxTokens: nat)

  /** What awaiting `generateText` yields: the generated text, or a thrown value. */
  datatype Completion = Completed(text: string) | Threw(error: Thrown)

  /** The model call made, if any, and the value returned. */
  datatype GatewayRun<T> = GatewayRun(call: Option<ModelCall>, result: T)

  /** A song as the model is asked to describe it. */
  datatype Suggestion = Suggestion(
    track_name: string,
    artist_name: string,
    album_name: Option<string>,
    spotify_uri: Option<string>)

  /**
   * What `JSON.parse` makes of the extracted text, which always starts with
   * '[' and so, when it parses, is an array: a list of song objects, or a
   * list holding a `null`, on which reading `.track_name` throws.
   */
  datatype Parsed = Songs(songs: seq<Suggestion>) | NullElement

  // ---------------------------------------------------------------------
  // generateAIResponse

  const NotConfiguredReply := "AI service is not properly configured. Please check your environment variables."
  const TroublePrefix := "I'm having trouble connecting right now. Error: "
  const ContextMarker := "Context about the user: "

  /** The fixed persona text of the system prompt, up to the context line. */
  const Persona :=
    "You are a compassionate mental health companion named Mindi. \n"
    + "    Your goal is to provide supportive, empathetic responses to help users manage their mental wellbeing.\n"
    + "    You should be warm, understanding, and never judgmental. \n"
    + "    Provide practical advice when appropriate, but focus on emotional support.\n"
    + "    Keep responses concise (under 150 words) but meaningful.\n"
    + "    "

  /** `${context ? `Context about the user: ${context}` : ""}`: an empty context counts as none. */
  predicate HasContext(context: Option<string>)
  {
    context.Some? && context.value != ""
  }

  /** The system prompt: the persona, then the context line exactly when a context is given. */
  function SystemPrompt(context: Option<string>): (r: string)
    ensures Persona <= r
    ensures HasContext(context) <==> |r| > |Persona|
    ensures HasContext(context) ==> r[|Persona|..] == ContextMarker + context.value
  {
    Persona + if HasContext(context) then ContextMarker + context.value else ""
  }

  /** `generateAIResponse(prompt, context)` */
  function GenerateAIResponse(configured: bool, prompt: string, context: Option<string>, outcome: Completion): (r: GatewayRun<string>)
    // unconfigured: the fixed notice, and the model is not called
    ensures !configured ==> r.call.None? && r.result == NotConfiguredReply
    // configured: exactly one call, with the prompt as given and the persona system prompt
    ensures configured ==> r.call == Some(ModelCall(ModelName, prompt, Some(SystemPrompt(context)), 500))
    ensures configured && outcome.Completed? ==> r.result == outcome.text
    // a failed call is turned into text, never rethrown
    ensures configured && outcome.Threw? ==> r.result == TroublePrefix + Describe(outcome.error)
  {
    if !configured then GatewayRun(None, NotConfiguredReply)
    else
      var call := ModelCall(ModelName, prompt, Some(SystemPrompt(context)), 500);
      match outcome
      case Completed(text) => GatewayRun(Some(call), text)
      case Threw(e) => GatewayRun(Some(call), TroublePrefix + Describe(e))
  }

  // ---------------------------------------------------------------------
  // generateJournalPrompt

  const JournalNotConfigured := "What's on your mind today? (AI service not configured)"

  /** `mood || "reflective"` */
  function MoodWord(mood: Option<string>): (r: string)
    ensures r != ""
    ensures mood.Some? && mood.value != "" ==> r == mood.value
    ensures !(mood.Some? && mood.value != "") ==> r == "reflective"
  {
    if mood.Some? && mood.value != "" then mood.value else "reflective"
  }

  const JournalLead := "Generate a thoughtful journaling prompt for someone who is feeling "
  const JournalTail := " today. The prompt should encourage self-reflection and emotional processing."

  function JournalInstruction(mood: Option<string>): string
  {
    JournalLead + MoodWord(mood) + JournalTail
  }

  function JournalErrorText(e: Thrown): string
  {
    "What emotions are you experiencing today? (Error: " + Describe(e) + ")"
  }

  /** `generateJournalPrompt(mood)` */
  function GenerateJournalPrompt(configured: bool, mood: Option<string>, outcome: Completion): (r: GatewayRun<string>)
    ensures !configured ==> r.call.None? && r.result == JournalNotConfigured
    ensures configured ==> r.call == Some(ModelCall(ModelName, JournalInstruction(mood), None, 100))
    ensures configured && outcome.Completed? ==> r.result == outcome.text
    ensures configured && outcome.Threw? ==> r.result == JournalErrorText(outcome.error)
  {
    if !configured then GatewayRun(None, JournalNotConfigured)
    else
      var call := ModelCall(ModelName, JournalInstruction(mood), None, 100);
      match outcome
      case Completed(text) => GatewayRun(Some(call), text)
      case Threw(e) => GatewayRun(Some(call), JournalErrorText(e))
  }

  /** Without a mood the instruction asks for a "reflective" prompt. */
  lemma AbsentMoodIsReflective(configured: bool, outcome: Completion)
    requires configured
    ensures GenerateJournalPrompt(configured, None, outcome).call.value.prompt
         == GenerateJournalPrompt(configured, Some("reflective"), outcome).call.value.prompt
  {
  }

  // ---------------------------------------------------------------------
  // generateMusicSuggestion

  /** The calming three-track list returned whenever no parsed list is available. */
  const Fallback: seq<Suggestion> := [
    Suggestion("Weightless", "Marconi Union", Some("Weightless"), None),
    Suggestion("Electra", "Airstream", Some("Electra"), None),
    Suggestion("Watermark", "Enya", Some("Watermark"), None)
  ]

  /** The fallback has three complete entries. */
  lemma FallbackShape()
    ensures |Fallback| == 3
    ensures forall i :: 0 <= i < |Fallback| ==>
      Fallback[i].track_name != "" && Fallback[i].artist_name != ""
      && Fallback[i].album_name.Some? && Fallback[i].album_name.value != ""
  {
  }

  function MusicInstruction(mood: string): string
  {
    MusicLead + mood + MusicFormat
  }

  const MusicLead := "Suggest 3 songs that would be good for someone feeling "
  const MusicFormat := ". Format the response as a JSON array with objects containing track_name, artist_name, and album_name properties. Do not include any explanatory text."
  const MusicSystem := "You are a music recommendation assistant. Respond only with valid JSON arrays containing song recommendations."

  /** The index of the first `c` in `s`. */
  function FirstIndexOf(s: string, c: char): (r: Option<nat>)
    ensures r.None? <==> c !in s
    ensures r.Some? ==> r.value < |s| && s[r.value] == c && c !in s[..r.value]
  {
    if s == [] then None
    else if s[0] == c then Some(0)
    else
      var rest := FirstIndexOf(s[1..], c);
      if rest.None? then None
      else
        assert s[..rest.value + 1] == [s[0]] + s[1..][..rest.value];
        Some(rest.value + 1)
  }

  /** The index of the last `c` in `s`. */
  function LastIndexOf(s: string, c: char): (r: Option<nat>)
    ensures r.None? <==> c !in s
    ensures r.Some? ==> r.value < |s| && s[r.value] == c && c !in s[r.value + 1..]
  {
    if s == [] then None
    else if s[|s| - 1] == c then Some(|s| - 1)
    else
      var rest := LastIndexOf(s[..|s| - 1], c);
      if rest.None? then
        assert s == s[..|s| - 1] + [s[|s| - 1]];
        None
      else
        assert s[rest.value + 1..] == s[..|s| - 1][rest.value + 1..] + [s[|s| - 1]];
        rest
  }

  /**
   * `text.match(/\[.*\]/s)`: the greedy, dot-all match runs from the first
   * '[' to the last ']' after it.
   */
  function ExtractArray(text: string): Option<string>
  {
    var open := FirstIndexOf(text, '[');
    var close := LastIndexOf(text, ']');
    if open.Some? && close.Some? && open.value < close.value then
      Some(text[open.value..close.value + 1])
    else
      None
  }

  /**
   * There is a match exactly when some ']' follows a '['; the match is the
   * span from the first '[' to the last ']'.
   */
  lemma ExtractArraySpec(text: string)
    ensures ExtractArray(text).None? <==> !exists i, j :: 0 <= i < j < |text| && text[i] == '[' && text[j] == ']'
    ensures ExtractArray(text).Some? ==> exists i :: BracketSpan(text, i, ExtractArray(text).value)
  {
    var open := FirstIndexOf(text, '[');
    var close := LastIndexOf(text, ']');
    if open.Some? && close.Some? && open.value < close.value {
      assert BracketSpan(text, open.value, text[open.value..close.value + 1]);
    } else {
      NoBracketPair(text);
    }
  }

  /** When the first '[' does not precede the last ']', no '[' precedes any ']'. */
  lemma NoBracketPair(text: string)
    requires var open, close := FirstIndexOf(text, '['), LastIndexOf(text, ']');
             !(open.Some? && close.Some? && open.value < close.value)
    ensures !exists i, j :: 0 <= i < j < |text| && text[i] == '[' && text[j] == ']'
  {
    var open, close := FirstIndexOf(text, '['), LastIndexOf(text, ']');
    forall i, j | 0 <= i < j < |text| && text[i] == '['
      ensures text[j] != ']'
    {
      assert open.Some?;
      if close.Some? && j > close.value { assert text[close.value + 1..][j - close.value - 1] == text[j]; }
    }
  }

  /**
   * `span` starts at `i` in `text`, opens with the first '[' of the text and
   * closes with its last ']'.
   */
  predicate BracketSpan(text: string, i: int, span: string)
  {
    && 0 <= i && i + |span| <= |text| && 2 <= |span|
    && text[i..i + |span|] == span
    && span[0] == '[' && span[|span| - 1] == ']'
    && '[' !in text[..i] && ']' !in text[i + |span|..]
  }

  /**
   * `generateMusicSuggestion(mood)`, with `decode` standing for `JSON.parse`
   * on the extracted text: `None` when it throws, else the parsed array,
   * which is returned unchecked.
   */
  function GenerateMusicSuggestion(configured: bool, mood: string, outcome: Completion,
                                   decode: string -> Option<Parsed>): (r: GatewayRun<Parsed>)
    // the four fallback cases
    ensures !configured ==> r.call.None? && r.result == Songs(Fallback)
    ensures configured && outcome.Threw? ==> r.result == Songs(Fallback)
    ensures configured && outcome.Completed? && ExtractArray(outcome.text).None? ==> r.result == Songs(Fallback)
    ensures (configured && outcome.Completed? && ExtractArray(outcome.text).Some?
             && decode(ExtractArray(outcome.text).value).None?) ==> r.result == Songs(Fallback)
    // otherwise whatever the extracted text parses to, unchecked
    ensures (configured && outcome.Completed? && ExtractArray(outcome.text).Some?
             && decode(ExtractArray(outcome.text).value).Some?) ==>
              r.result == decode(ExtractArray(outcome.text).value).value
    ensures configured ==> r.call == Some(ModelCall(ModelName, MusicInstruction(mood), Some(MusicSystem), 300))
  {
    if !configured then GatewayRun(None, Songs(Fallback))
    else
      var call := ModelCall(ModelName, MusicInstruction(mood), Some(MusicSystem), 300);
      match outcome
      case Threw(_) => GatewayRun(Some(call), Songs(Fallback))
      case Completed(text) =>
        match ExtractArray(text)
        case None => GatewayRun(Some(call), Songs(Fallback))
        case Some(candidate) =>
          match decode(candidate)
          case None => GatewayRun(Some(call), Songs(Fallback))
          case Some(parsed) => GatewayRun(Some(call), parsed)
  }

  /** The fallback does not depend on the mood asked about. */
  lemma FallbackIgnoresMood(mood1: string, mood2: string, outcome: Completion, decode: string -> Option<Parsed>)
    requires outcome.Threw?
    ensures GenerateMusicSuggestion(true, mood1, outcome, decode).result
         == GenerateMusicSuggestion(true, mood2, outcome, decode).result == Songs(Fallback)
    ensures GenerateMusicSuggestion(false, mood1, outcome, decode).result
         == GenerateMusicSuggestion(false, mood2, outcome, decode).result == Songs(Fallback)
  {
  }

  /** A reply with no ']' after a '[' yields the fallback, whatever the mood and the decoder. */
  lemma NoArrayFallsBack(mood: string, text: string, decode: string -> Option<Parsed>)
    requires !exists i, j :: 0 <= i < j < |text| && text[i] == '[' && text[j] == ']'
    ensures GenerateMusicSuggestion(true, mood, Completed(text), decode).result == Songs(Fallback)
  {
    ExtractArraySpec(text);
  }

  /**
   * The match is greedy: with no '[' before the array and no ']' after it,
   * the extracted text is the whole bracketed part, inner brackets included.
   */
  lemma GreedyExtraction(before: string, inner: string, after: string)
    requires '[' !in before && ']' !in after
    ensures ExtractArray(before + "[" + inner + "]" + after) == Some("[" + inner + "]")
  {
    var text := before + "[" + inner + "]" + after;
    var span := "[" + inner + "]";
    assert text == before + span + after;
    assert text[|before|] == '[' && text[|before| + |span| - 1] == ']';
    ExtractArraySpec(text);
    var r := ExtractArray(text);
    assert r.Some?;
    var i :| BracketSpan(text, i, r.value);
    assert r.value == text[|before|..|before| + |span|];
  }
}

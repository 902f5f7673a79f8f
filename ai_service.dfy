/**
 * The backend's AI service: the prompt it sends, the two vendor routes, the
 * clean-up of Gemini's reply text, and the wrapping of every failure in a
 * route-specific message.
 *
 * The vendors are not modelled. A route takes as inputs the reply the vendor
 * gave (its text, or the message of the exception the call raised) and the
 * JSON parser (`parse`, standing for `json.loads`); it returns the vendor
 * request it issued, if any, and its outcome.
 */
module AiService {
  import opened Wrappers
  import opened Text
  import opened Schema
  import opened Config

  const PromptIntro: string :=
    "You are a food suggestion expert. "
    + "Based on the user's input, suggest 3 delicious food combinations or dishes.\n\nUser Input: "

  const PreferencesLabel: string := "\nDietary Preferences: "
  const CuisineLabel: string := "\nCuisine Type: "

  const PromptFormat: string :=
    "\n\nProvide exactly 3 food suggestions in JSON format with the following structure:\n"
    + "{\n  \"suggestions\": [\n    {\n"
    + "      \"name\": \"Dish Name\",\n"
    + "      \"description\": \"Brief description of the dish\",\n"
    + "      \"ingredients\": [\"ingredient1\", \"ingredient2\", \"ingredient3\"],\n"
    + "      \"reasoning\": \"Why this matches the user's request\"\n"
    + "    }\n  ]\n}\n\n"
    + "Return ONLY valid JSON, no additional text."

  const SystemMessage: string :=
    "You are a helpful food suggestion assistant. " + "Always respond with valid JSON."

  const OpenAIErrorPrefix: string := "OpenAI API error: "
  const GeminiErrorPrefix: string := "Gemini API error: "

  /** What Python reports when the OpenAI route runs without a client (no OpenAI key was configured). */
  const MissingClient: string := "'AIService' object has no attribute 'openai_client'"

  const JsonFence: string := "```json"
  const Fence: string := "```"

  /** The request a route sends to its vendor. */
  datatype VendorRequest =
    | OpenAIChat(model: string, system: string, user: string)
    | GeminiGenerate(model: string, prompt: string)

  /** A parsed JSON reply; `suggestions` is None when the object has no such key. */
  datatype Payload = Payload(suggestions: Option<seq<RawSuggestion>>)

  /** Python truthiness of an optional string: present and non-empty. */
  predicate Truthy(v: Option<string>) {
    v.Some? && v.value != ""
  }

  /** A labelled line of the prompt, present only for a truthy value. */
  function Section(heading: string, v: Option<string>): string {
    if Truthy(v) then heading + v.value else ""
  }

  /** The prompt: the introduction, the user's input, the preferences line, the cuisine line, the reply format. */
  function Prompt(req: SuggestionRequest): string {
    PromptOf(PromptIntro, PromptFormat, req)
  }

  /** The prompt laid out for any introduction and format text. */
  function PromptOf(intro: string, format: string, req: SuggestionRequest): string {
    intro + req.userInput + Section(PreferencesLabel, req.preferences)
      + Section(CuisineLabel, req.cuisineType) + format
  }

  lemma PromptOfSections(intro: string, format: string, req: SuggestionRequest)
    ensures !Truthy(req.preferences) && !Truthy(req.cuisineType) ==>
      PromptOf(intro, format, req) == intro + req.userInput + format
    ensures Truthy(req.preferences) && !Truthy(req.cuisineType) ==>
      PromptOf(intro, format, req) == intro + req.userInput + PreferencesLabel + req.preferences.value + format
    ensures !Truthy(req.preferences) && Truthy(req.cuisineType) ==>
      PromptOf(intro, format, req) == intro + req.userInput + CuisineLabel + req.cuisineType.value + format
    ensures Truthy(req.preferences) && Truthy(req.cuisineType) ==>
      PromptOf(intro, format, req) == intro + req.userInput + PreferencesLabel + req.preferences.value
        + CuisineLabel + req.cuisineType.value + format
  {
    var head := intro + req.userInput;
    var prefs := Section(PreferencesLabel, req.preferences);
    if !Truthy(req.preferences) {
      assert head + prefs == head;
    }
    if !Truthy(req.cuisineType) {
      assert head + prefs + Section(CuisineLabel, req.cuisineType) == head + prefs;
    }
  }

  /** The prompt opens with the introduction and the input, and closes with the reply format. */
  lemma PromptFraming(req: SuggestionRequest)
    ensures StartsWith(Prompt(req), PromptIntro + req.userInput)
    ensures EndsWith(Prompt(req), PromptFormat)
  {
    PromptOfFraming(PromptIntro, PromptFormat, req);
  }

  lemma PromptOfFraming(intro: string, format: string, req: SuggestionRequest)
    ensures StartsWith(PromptOf(intro, format, req), intro + req.userInput)
    ensures EndsWith(PromptOf(intro, format, req), format)
  {
    var head := intro + req.userInput;
    var withPreferences := head + Section(PreferencesLabel, req.preferences);
    var withCuisine := withPreferences + Section(CuisineLabel, req.cuisineType);
    assert StartsWith(head, head);
    StartsWithAppend(head, head, Section(PreferencesLabel, req.preferences));
    StartsWithAppend(withPreferences, head, Section(CuisineLabel, req.cuisineType));
    StartsWithAppend(withCuisine, head, format);
    EndsWithConcat(withCuisine, format);
  }

  /**
   * Between input and format come the preferences line, then the cuisine
   * line, each only when its value is truthy.
   */
  lemma PromptSections(req: SuggestionRequest)
    ensures !Truthy(req.preferences) && !Truthy(req.cuisineType) ==>
      Prompt(req) == PromptIntro + req.userInput + PromptFormat
    ensures Truthy(req.preferences) && !Truthy(req.cuisineType) ==>
      Prompt(req) == PromptIntro + req.userInput + PreferencesLabel + req.preferences.value + PromptFormat
    ensures !Truthy(req.preferences) && Truthy(req.cuisineType) ==>
      Prompt(req) == PromptIntro + req.userInput + CuisineLabel + req.cuisineType.value + PromptFormat
    ensures Truthy(req.preferences) && Truthy(req.cuisineType) ==>
      Prompt(req) == PromptIntro + req.userInput + PreferencesLabel + req.preferences.value
        + CuisineLabel + req.cuisineType.value + PromptFormat
  {
    PromptOfSections(PromptIntro, PromptFormat, req);
  }

  /** With no optional sections, the prompt determines the user's input. */
  lemma {:induction false} PromptDeterminesInput(r1: SuggestionRequest, r2: SuggestionRequest)
    requires !Truthy(r1.preferences) && !Truthy(r1.cuisineType)
    requires !Truthy(r2.preferences) && !Truthy(r2.cuisineType)
    requires Prompt(r1) == Prompt(r2)
    ensures r1.userInput == r2.userInput
  {
    PromptSections(r1);
    PromptSections(r2);
    var p := Prompt(r1);
    assert |r1.userInput| == |r2.userInput|;
    assert r1.userInput == p[|PromptIntro|..|PromptIntro| + |r1.userInput|];
    assert r2.userInput == p[|PromptIntro|..|PromptIntro| + |r2.userInput|];
  }

  /** `_build_prompt`: the prompt grown piece by piece. */
  method BuildPrompt(req: SuggestionRequest) returns (prompt: string)
    ensures prompt == Prompt(req)
  {
    prompt := PromptIntro + req.userInput;
    if Truthy(req.preferences) {
      prompt := prompt + PreferencesLabel + req.preferences.value;
    } else {
      assert prompt == prompt + Section(PreferencesLabel, req.preferences);
    }
    assert prompt == PromptIntro + req.userInput + Section(PreferencesLabel, req.preferences);
    if Truthy(req.cuisineType) {
      prompt := prompt + CuisineLabel + req.cuisineType.value;
    } else {
      assert prompt == prompt + Section(CuisineLabel, req.cuisineType);
    }
    assert prompt == PromptIntro + req.userInput + Section(PreferencesLabel, req.preferences)
      + Section(CuisineLabel, req.cuisineType);
    prompt := prompt + PromptFormat;
  }

  function DropPrefix(s: string, prefix: string): (r: string)
    ensures StartsWith(s, prefix) ==> r == s[|prefix|..]
    ensures !StartsWith(s, prefix) ==> r == s
    ensures |r| <= |s|
  {
    if StartsWith(s, prefix) then s[|prefix|..] else s
  }

  function DropSuffix(s: string, suffix: string): (r: string)
    ensures EndsWith(s, suffix) ==> r == s[..|s| - |suffix|]
    ensures !EndsWith(s, suffix) ==> r == s
    ensures |r| <= |s|
  {
    if EndsWith(s, suffix) then s[..|s| - |suffix|] else s
  }

  /**
   * The clean-up of a Gemini reply, in its order: strip, drop a leading
   * "```json", then a leading "```", then a trailing "```", strip again.
   */
  function Unfenced(text: string, isSpace: char -> bool): string {
    Trim(DropSuffix(DropPrefix(DropPrefix(Trim(text, isSpace), JsonFence), Fence), Fence), isSpace)
  }

  /** The clean-up only ever removes characters. */
  lemma UnfencedNoLonger(text: string, isSpace: char -> bool)
    ensures |Unfenced(text, isSpace)| <= |text|
  {
    var t := Trim(text, isSpace);
    var a := DropPrefix(t, JsonFence);
    var b := DropPrefix(a, Fence);
    var c := DropSuffix(b, Fence);
    assert Unfenced(text, isSpace) == Trim(c, isSpace);
  }

  /** Text without edge whitespace that neither starts nor ends with a fence is returned unchanged. */
  lemma UnfencedPlain(text: string, isSpace: char -> bool)
    requires NoEdgeSpace(text, isSpace)
    requires !StartsWith(text, Fence) && !EndsWith(text, Fence)
    ensures Unfenced(text, isSpace) == text
  {
    TrimUnchanged(text, isSpace);
    assert !StartsWith(text, JsonFence);
  }

  lemma DropPrefixOf(prefix: string, rest: string)
    ensures DropPrefix(prefix + rest, prefix) == rest
  {
    assert (prefix + rest)[..|prefix|] == prefix;
    assert (prefix + rest)[|prefix|..] == rest;
  }

  lemma DropSuffixOf(rest: string, suffix: string)
    ensures DropSuffix(rest + suffix, suffix) == rest
  {
    assert (rest + suffix)[|rest|..] == suffix;
    assert (rest + suffix)[..|rest|] == rest;
  }

  /**
   * The clean-up of a code block `fence + "\n" + x + "\n" + "```"`, for a
   * fence that the first removal step maps to the text after it.
   */
  lemma UnfencedBlock(fence: string, x: string, isSpace: char -> bool)
    requires isSpace('\n') && !isSpace('`')
    requires NoEdgeSpace(x, isSpace)
    requires fence != [] && fence[0] == '`'
    requires DropPrefix(DropPrefix(fence + "\n" + x + "\n" + Fence, JsonFence), Fence) == "\n" + x + "\n" + Fence
    ensures Unfenced(fence + "\n" + x + "\n" + Fence, isSpace) == x
  {
    var block := fence + "\n" + x + "\n" + Fence;
    assert block[0] == '`' && block[|block| - 1] == '`';
    TrimUnchanged(block, isSpace);
    var inner := "\n" + x + "\n";
    assert inner + Fence == "\n" + x + "\n" + Fence;
    DropSuffixOf(inner, Fence);
    assert AllSpace("\n", isSpace);
    TrimPadded("\n", x, "\n", isSpace);
  }

  /** A JSON code block "```json\n" + x + "\n```" yields x, for x without edge whitespace. */
  lemma UnfencedJsonBlock(x: string, isSpace: char -> bool)
    requires isSpace('\n') && !isSpace('`')
    requires NoEdgeSpace(x, isSpace)
    ensures Unfenced(JsonFence + "\n" + x + "\n" + Fence, isSpace) == x
  {
    var rest := "\n" + x + "\n" + Fence;
    assert JsonFence + "\n" + x + "\n" + Fence == JsonFence + rest;
    DropPrefixOf(JsonFence, rest);
    assert !StartsWith(rest, Fence) by { assert rest[0] == '\n'; }
    UnfencedBlock(JsonFence, x, isSpace);
  }

  /** A bare code block "```\n" + x + "\n```" yields x as well. */
  lemma UnfencedBareBlock(x: string, isSpace: char -> bool)
    requires isSpace('\n') && !isSpace('`')
    requires NoEdgeSpace(x, isSpace)
    ensures Unfenced(Fence + "\n" + x + "\n" + Fence, isSpace) == x
  {
    var rest := "\n" + x + "\n" + Fence;
    assert Fence + "\n" + x + "\n" + Fence == Fence + rest;
    assert !StartsWith(Fence + rest, JsonFence) by {
      assert (Fence + rest)[3] == '\n' && JsonFence[3] == 'j';
    }
    DropPrefixOf(Fence, rest);
    UnfencedBlock(Fence, x, isSpace);
  }

  /** The clean-up as the Gemini route runs it, reassigning the text step by step. */
  method StripFence(text: string, isSpace: char -> bool) returns (content: string)
    ensures content == Unfenced(text, isSpace)
  {
    content := Trim(text, isSpace);
    ghost var trimmed := content;
    if StartsWith(content, JsonFence) {
      content := content[|JsonFence|..];
    }
    assert content == DropPrefix(trimmed, JsonFence);
    ghost var afterJson := content;
    if StartsWith(content, Fence) {
      content := content[|Fence|..];
    }
    assert content == DropPrefix(afterJson, Fence);
    ghost var afterFence := content;
    if EndsWith(content, Fence) {
      content := content[..|content| - |Fence|];
    }
    assert content == DropSuffix(afterFence, Fence);
    content := Trim(content, isSpace);
  }

  /** `data.get("suggestions", [])`, each item validated as a suggestion. */
  function SuggestionsOf(data: Payload): (r: Result<seq<FoodSuggestion>, string>)
    ensures data.suggestions.None? ==> r == Success([])
    ensures data.suggestions.Some? ==> r == ParseSuggestions(data.suggestions.value)
  {
    ParseSuggestions(data.suggestions.GetOr([]))
  }

  /** Reply text to suggestions: the vendor's failure, the parser's, or the validator's, else the list. */
  function Decode(reply: Result<string, string>, parse: string -> Result<Payload, string>): (r: Result<seq<FoodSuggestion>, string>)
    ensures reply.Failure? ==> r == Failure(reply.error)
    ensures reply.Success? && parse(reply.value).Failure? ==> r == Failure(parse(reply.value).error)
    ensures r.Success? <==>
      reply.Success? && parse(reply.value).Success? && SuggestionsOf(parse(reply.value).value).Success?
    ensures r.Success? ==> r == SuggestionsOf(parse(reply.value).value)
    ensures reply.Success? && parse(reply.value).Success? ==> r == SuggestionsOf(parse(reply.value).value)
  {
    match reply
    case Failure(e) => Failure(e)
    case Success(text) =>
      match parse(text)
      case Failure(e) => Failure(e)
      case Success(data) => SuggestionsOf(data)
  }

  /** An error re-raised with a prefix; a success passed through. */
  function Prefixed<T>(prefix: string, r: Result<T, string>): (p: Result<T, string>)
    ensures p.Success? <==> r.Success?
    ensures p.Success? ==> p.value == r.value
    ensures p.Failure? ==> p.error == prefix + r.error && StartsWith(p.error, prefix)
  {
    match r
    case Success(v) => Success(v)
    case Failure(e) => Failure(prefix + e)
  }

  /** The Gemini reply after the clean-up, for the parser. */
  function CleanReply(reply: Result<string, string>, isSpace: char -> bool): (r: Result<string, string>)
    ensures r.Success? <==> reply.Success?
    ensures r.Failure? ==> r.error == reply.error
    ensures r.Success? ==> r.value == Unfenced(reply.value, isSpace) && |r.value| <= |reply.value|
  {
    match reply
    case Success(text) => UnfencedNoLonger(text, isSpace); Success(Unfenced(text, isSpace))
    case Failure(e) => Failure(e)
  }

  /** `get_suggestions_openai`. Without an OpenAI key no client exists, and the route fails before any call. */
  method SuggestOpenAI(settings: Settings, req: SuggestionRequest, reply: Result<string, string>,
                       parse: string -> Result<Payload, string>)
    returns (sent: Option<VendorRequest>, r: Result<seq<FoodSuggestion>, string>)
    ensures settings.openaiApiKey == "" ==> sent == None && r == Failure(OpenAIErrorPrefix + MissingClient)
    ensures settings.openaiApiKey != "" ==> sent == Some(OpenAIChat(settings.openaiModel, SystemMessage, Prompt(req)))
    ensures settings.openaiApiKey != "" ==> r == Prefixed(OpenAIErrorPrefix, Decode(reply, parse))
  {
    var prompt := BuildPrompt(req);
    if settings.openaiApiKey == "" {
      return None, Failure(OpenAIErrorPrefix + MissingClient);
    }
    sent := Some(OpenAIChat(settings.openaiModel, SystemMessage, prompt));
    r := Prefixed(OpenAIErrorPrefix, Decode(reply, parse));
  }

  /** `get_suggestions_gemini`: the reply text is cleaned of code fences before parsing. */
  method SuggestGemini(settings: Settings, req: SuggestionRequest, reply: Result<string, string>,
                       parse: string -> Result<Payload, string>, isSpace: char -> bool)
    returns (sent: Option<VendorRequest>, r: Result<seq<FoodSuggestion>, string>)
    ensures sent == Some(GeminiGenerate(settings.geminiModel, Prompt(req)))
    ensures r == Prefixed(GeminiErrorPrefix, Decode(CleanReply(reply, isSpace), parse))
  {
    var prompt := BuildPrompt(req);
    sent := Some(GeminiGenerate(settings.geminiModel, prompt));
    match reply {
      case Failure(e) =>
        r := Failure(GeminiErrorPrefix + e);
      case Success(text) =>
        var content := StripFence(text, isSpace);
        r := Prefixed(GeminiErrorPrefix, Decode(Success(content), parse));
    }
  }

  /**
   * The outcome of the service for the given settings: Gemini's route for
   * provider "gemini"; for every other provider OpenAI's, which fails at once
   * without an OpenAI key.
   */
  function RouteOutcome(settings: Settings, reply: Result<string, string>,
                        parse: string -> Result<Payload, string>, isSpace: char -> bool)
    : (r: Result<seq<FoodSuggestion>, string>)
    ensures r.Failure? ==>
      StartsWith(r.error, if settings.aiProvider == "gemini" then GeminiErrorPrefix else OpenAIErrorPrefix)
    ensures r.Success? ==> reply.Success?
  {
    if settings.aiProvider == "gemini" then
      Prefixed(GeminiErrorPrefix, Decode(CleanReply(reply, isSpace), parse))
    else if settings.openaiApiKey == "" then
      Failure(OpenAIErrorPrefix + MissingClient)
    else
      Prefixed(OpenAIErrorPrefix, Decode(reply, parse))
  }

  /**
   * `get_suggestions`: provider "gemini" takes the Gemini route and every
   * other value the OpenAI route; a failure names the route it came from.
   */
  method Suggest(settings: Settings, req: SuggestionRequest, reply: Result<string, string>,
                 parse: string -> Result<Payload, string>, isSpace: char -> bool)
    returns (sent: Option<VendorRequest>, r: Result<seq<FoodSuggestion>, string>)
    ensures settings.aiProvider == "gemini" ==> sent == Some(GeminiGenerate(settings.geminiModel, Prompt(req)))
    ensures settings.aiProvider != "gemini" && settings.openaiApiKey == "" ==> sent == None
    ensures settings.aiProvider != "gemini" && settings.openaiApiKey != "" ==>
      sent == Some(OpenAIChat(settings.openaiModel, SystemMessage, Prompt(req)))
    ensures r == RouteOutcome(settings, reply, parse, isSpace)
  {
    if settings.aiProvider == "gemini" {
      sent, r := SuggestGemini(settings, req, reply, parse, isSpace);
    } else {
      sent, r := SuggestOpenAI(settings, req, reply, parse);
    }
  }
}

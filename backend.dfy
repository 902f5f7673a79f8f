/**
 * The backend's HTTP handlers: `/suggest` (choosing the provider and keys
 * from headers or configuration, checking the key, and turning failures into
 * HTTP errors), `/models/gemini` (the list of Gemini models that can generate
 * content) and `/health` (which keys are configured).
 *
 * Request headers arrive as optional strings (`None` when a header is not
 * sent). The vendor's reply and the vendor's list of models are inputs.
 */
module Backend {
  import opened Wrappers
  import opened Schema
  import opened Config
  import opened AiService

  /** An `HTTPException`: a status code and a detail message. */
  datatype HttpError = HttpError(status: int, detail: string)

  const OpenAINotConfigured: string :=
    "OpenAI API key not configured. " + "Please provide it via settings or headers."
  const GeminiNotConfigured: string :=
    "Gemini API key not configured. " + "Please provide it via settings or headers."
  const GenerationErrorPrefix: string := "Error generating suggestions: "

  const ModelsKeyMissing: string := "Gemini API key not configured"
  const ModelsErrorPrefix: string := "Error fetching models: "
  const GenerateContent: string := "generateContent"

  /** Python's `header or configured`: the header's value unless it is absent or empty. */
  function Or(header: Option<string>, configured: string): (r: string)
    ensures header.Some? && header.value != "" ==> r == header.value
    ensures header.None? || header.value == "" ==> r == configured
  {
    if header.Some? && header.value != "" then header.value else configured
  }

  /**
   * The settings a request runs with: provider and keys from the headers
   * where given, from the configuration otherwise; the model names, the
   * application name and the debug flag always from the configuration.
   */
  function Resolve(settings: Settings, xProvider: Option<string>,
                   xOpenAIKey: Option<string>, xGeminiKey: Option<string>): (s: Settings)
    ensures s.aiProvider == Or(xProvider, settings.aiProvider)
    ensures s.openaiApiKey == Or(xOpenAIKey, settings.openaiApiKey)
    ensures s.geminiApiKey == Or(xGeminiKey, settings.geminiApiKey)
    ensures s.openaiModel == settings.openaiModel && s.geminiModel == settings.geminiModel
    ensures s.appName == settings.appName && s.debug == settings.debug
  {
    settings.(
      aiProvider := Or(xProvider, settings.aiProvider),
      openaiApiKey := Or(xOpenAIKey, settings.openaiApiKey),
      geminiApiKey := Or(xGeminiKey, settings.geminiApiKey))
  }

  /**
   * The key check: "openai" needs an OpenAI key and "gemini" a Gemini key,
   * each with its own 500 error; any other provider passes unchecked.
   */
  function KeyCheck(s: Settings): (e: Option<HttpError>)
    ensures e.Some? <==>
      (s.aiProvider == "openai" && s.openaiApiKey == "") || (s.aiProvider == "gemini" && s.geminiApiKey == "")
    ensures e.Some? ==> e.value.status == 500
    ensures e.Some? && s.aiProvider == "openai" ==> e.value.detail == OpenAINotConfigured
    ensures e.Some? && s.aiProvider == "gemini" ==> e.value.detail == GeminiNotConfigured
  {
    if s.aiProvider == "openai" && s.openaiApiKey == "" then
      Some(HttpError(500, OpenAINotConfigured))
    else if s.aiProvider == "gemini" && s.geminiApiKey == "" then
      Some(HttpError(500, GeminiNotConfigured))
    else
      None
  }

  /** A provider header with a non-empty key header for that provider passes the check, whatever is configured. */
  lemma HeaderCredentialsSuffice(settings: Settings, provider: string, key: string,
                                 otherKey: Option<string>)
    requires provider == "openai" || provider == "gemini"
    requires key != ""
    ensures provider == "openai" ==> KeyCheck(Resolve(settings, Some(provider), Some(key), otherKey)) == None
    ensures provider == "gemini" ==> KeyCheck(Resolve(settings, Some(provider), otherKey, Some(key))) == None
  {
  }

  /** With the built-in configuration, a request without headers is refused for want of an OpenAI key. */
  lemma DefaultsNeedHeaders()
    ensures KeyCheck(Resolve(Defaults, None, None, None)) == Some(HttpError(500, OpenAINotConfigured))
  {
  }

  /**
   * `suggest_food`. A failed key check is returned as it is; any failure of
   * the service becomes a 500 whose detail is prefixed; a success names the
   * provider the request ran with.
   */
  method SuggestFood(req: SuggestionRequest, settings: Settings, xProvider: Option<string>,
                     xOpenAIKey: Option<string>, xGeminiKey: Option<string>,
                     reply: Result<string, string>, parse: string -> Result<Payload, string>,
                     isSpace: char -> bool)
    returns (sent: Option<VendorRequest>, r: Result<SuggestionResponse, HttpError>)
    ensures var custom := Resolve(settings, xProvider, xOpenAIKey, xGeminiKey);
      KeyCheck(custom).Some? ==> sent == None && r == Failure(KeyCheck(custom).value)
    ensures var custom := Resolve(settings, xProvider, xOpenAIKey, xGeminiKey);
      var outcome := RouteOutcome(custom, reply, parse, isSpace);
      KeyCheck(custom).None? ==>
        && (outcome.Success? ==> r == Success(SuggestionResponse(outcome.value, custom.aiProvider)))
        && (outcome.Failure? ==> r == Failure(HttpError(500, GenerationErrorPrefix + outcome.error)))
    ensures r.Failure? ==> r.error.status == 500
    ensures var custom := Resolve(settings, xProvider, xOpenAIKey, xGeminiKey);
      KeyCheck(custom).None? && (custom.aiProvider == "openai" || custom.aiProvider == "gemini") ==> sent.Some?
    ensures sent.Some? ==>
      || (sent.value.OpenAIChat? && sent.value.user == Prompt(req))
      || (sent.value.GeminiGenerate? && sent.value.prompt == Prompt(req))
    ensures var custom := Resolve(settings, xProvider, xOpenAIKey, xGeminiKey);
      KeyCheck(custom).None? ==>
        sent == (if custom.aiProvider == "gemini" then Some(GeminiGenerate(custom.geminiModel, Prompt(req)))
                 else if custom.openaiApiKey == "" then None
                 else Some(OpenAIChat(custom.openaiModel, SystemMessage, Prompt(req))))
  {
    var custom := Resolve(settings, xProvider, xOpenAIKey, xGeminiKey);
    var problem := KeyCheck(custom);
    if problem.Some? {
      return None, Failure(problem.value);
    }
    var suggestions;
    sent, suggestions := Suggest(custom, req, reply, parse, isSpace);
    match suggestions {
      case Success(s) =>
        r := Success(SuggestionResponse(s, custom.aiProvider));
      case Failure(e) =>
        r := Failure(HttpError(500, GenerationErrorPrefix + e));
    }
  }

  /** A model as the vendor lists it, with the fields the endpoint reports. */
  datatype ModelInfo = ModelInfo(name: string, displayName: string, description: string,
                                 supportedMethods: seq<string>)

  datatype ModelList = ModelList(count: nat, models: seq<ModelInfo>)

  predicate Generative(m: ModelInfo) {
    GenerateContent in m.supportedMethods
  }

  /** The models that support content generation, in the order listed. */
  function GenerativeModels(ms: seq<ModelInfo>): seq<ModelInfo> {
    if ms == [] then []
    else GenerativeModels(ms[..|ms| - 1]) + (if Generative(ms[|ms| - 1]) then [ms[|ms| - 1]] else [])
  }

  /** Exactly the generative models are kept. */
  lemma {:induction false} GenerativeModelsMembers(ms: seq<ModelInfo>)
    ensures forall m :: m in GenerativeModels(ms) <==> m in ms && Generative(m)
    ensures |GenerativeModels(ms)| <= |ms|
  {
    if ms != [] {
      var init := ms[..|ms| - 1];
      GenerativeModelsMembers(init);
      assert ms == init + [ms[|ms| - 1]];
    }
  }

  /** Filtering respects concatenation, so the kept models stay in their listed order. */
  lemma {:induction false} GenerativeModelsConcat(a: seq<ModelInfo>, b: seq<ModelInfo>)
    ensures GenerativeModels(a + b) == GenerativeModels(a) + GenerativeModels(b)
    decreases |b|
  {
    if b == [] {
      assert a + b == a;
    } else {
      var init := b[..|b| - 1];
      assert (a + b)[..|a + b| - 1] == a + init;
      assert (a + b)[|a + b| - 1] == b[|b| - 1];
      GenerativeModelsConcat(a, init);
    }
  }

  /**
   * `list_gemini_models`: refused without a Gemini key; a failure of the
   * vendor's listing becomes a 500 with a prefixed detail; otherwise the
   * generative models, in order, and their number.
   */
  method ListGeminiModels(settings: Settings, listed: Result<seq<ModelInfo>, string>)
    returns (r: Result<ModelList, HttpError>)
    ensures settings.geminiApiKey == "" ==> r == Failure(HttpError(500, ModelsKeyMissing))
    ensures settings.geminiApiKey != "" && listed.Failure? ==>
      r == Failure(HttpError(500, ModelsErrorPrefix + listed.error))
    ensures settings.geminiApiKey != "" && listed.Success? ==>
      r.Success? && r.value.models == GenerativeModels(listed.value) && r.value.count == |r.value.models|
  {
    if settings.geminiApiKey == "" {
      return Failure(HttpError(500, ModelsKeyMissing));
    }
    if listed.Failure? {
      return Failure(HttpError(500, ModelsErrorPrefix + listed.error));
    }
    var all := listed.value;
    var models: seq<ModelInfo> := [];
    var i := 0;
    while i < |all|
      invariant 0 <= i <= |all|
      invariant models == GenerativeModels(all[..i])
    {
      assert all[..i + 1][..i] == all[..i];
      if GenerateContent in all[i].supportedMethods {
        models := models + [all[i]];
      }
      i := i + 1;
    }
    assert all[..|all|] == all;
    return Success(ModelList(|models|, models));
  }

  datatype HealthReport = HealthReport(aiProvider: string, openaiConfigured: bool, geminiConfigured: bool)

  /** `health_check`: the configured provider, and whether each key is configured (non-empty). */
  function HealthCheck(settings: Settings): (h: HealthReport)
    ensures h.aiProvider == settings.aiProvider
    ensures h.openaiConfigured <==> settings.openaiApiKey != ""
    ensures h.geminiConfigured <==> settings.geminiApiKey != ""
  {
    HealthReport(settings.aiProvider, settings.openaiApiKey != "", settings.geminiApiKey != "")
  }

  /** Health reports the key the `/suggest` check needs: the default provider passes with no headers exactly when it is reported configured. */
  lemma HealthMatchesKeyCheck(settings: Settings)
    requires settings.aiProvider == "openai" || settings.aiProvider == "gemini"
    ensures var h := HealthCheck(settings);
      KeyCheck(Resolve(settings, None, None, None)).None? <==>
        (if settings.aiProvider == "openai" then h.openaiConfigured else h.geminiConfigured)
  {
  }
}

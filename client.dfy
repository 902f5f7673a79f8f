/**
 * The web client's call to the backend: the URL, the headers taken from
 * browser storage, the JSON body, and how the reply becomes a result or an
 * error. The network itself is an input: `FetchResult` is what `fetch`
 * delivered.
 */
module Client {
  import opened Wrappers
  import opened Text
  import opened Schema
  import opened Credentials

  const DefaultApiBase: string := "http://localhost:8000"
  const SuggestPath: string := "/suggest"

  const ContentType: string := "Content-Type"
  const JsonMediaType: string := "application/json"
  const ProviderHeader: string := "X-AI-Provider"
  const OpenAIKeyHeader: string := "X-OpenAI-API-Key"
  const GeminiKeyHeader: string := "X-Gemini-API-Key"

  const FetchFailed: string := "Failed to fetch suggestions"

  type Headers = map<string, string>

  datatype HttpRequest = HttpRequest(verb: string, url: string, headers: Headers, body: RawRequest)

  /** A reply with its status code and the outcome of reading its body as JSON. */
  datatype HttpResponse = HttpResponse(status: int, json: Result<SuggestionResponse, string>)

  /** What `fetch` delivered: a reply, or a rejection (no connection, CORS refusal, ...). */
  datatype FetchResult = Rejected(reason: string) | Received(response: HttpResponse)

  /** `NEXT_PUBLIC_API_URL || "http://localhost:8000"`: an unset or empty variable selects the default. */
  function ApiBaseUrl(env: Option<string>): (base: string)
    ensures base != ""
    ensures env.Some? && env.value != "" ==> base == env.value
    ensures env.None? || env.value == "" ==> base == DefaultApiBase
  {
    if env.Some? && env.value != "" then env.value else DefaultApiBase
  }

  function SuggestUrl(env: Option<string>): (url: string)
    ensures StartsWith(url, ApiBaseUrl(env)) && EndsWith(url, SuggestPath)
    ensures |url| == |ApiBaseUrl(env)| + |SuggestPath|
  {
    ApiBaseUrl(env) + SuggestPath
  }

  /**
   * The JSON body. `JSON.stringify` drops a field whose value is undefined,
   * so an omitted argument becomes an absent field. Whatever the client sends
   * is accepted by the backend's validator exactly when the input satisfies
   * the length bound, and then it reaches the backend unchanged.
   */
  function Body(userInput: string, preferences: Option<string>, cuisineType: Option<string>): (b: RawRequest)
    ensures ParseRequest(b).Success? <==> ValidUserInput(userInput)
    ensures ParseRequest(b).Success? ==>
      ParseRequest(b).value == SuggestionRequest(userInput, preferences, cuisineType)
    ensures b == RequestToRaw(SuggestionRequest(userInput, preferences, cuisineType))
  {
    RawRequest(Some(userInput), preferences, cuisineType)
  }

  /**
   * The headers the client must send for the given store: the JSON content
   * type always; the provider header and a key header only when both the
   * remembered provider and its key are non-empty; the key header named after
   * the provider, and none for a provider other than "openai" or "gemini".
   */
  ghost predicate ProperHeaders(store: Store, h: Headers) {
    var provider := Lookup(store, ProviderKey);
    var apiKey := Lookup(store, KeyFor(provider));
    var credentials := provider != "" && apiKey != "";
    && h.Keys <= {ContentType, ProviderHeader, OpenAIKeyHeader, GeminiKeyHeader}
    && ContentType in h && h[ContentType] == JsonMediaType
    && (ProviderHeader in h <==> credentials)
    && (ProviderHeader in h ==> h[ProviderHeader] == provider)
    && (OpenAIKeyHeader in h <==> credentials && provider == OpenAI)
    && (OpenAIKeyHeader in h ==> h[OpenAIKeyHeader] == apiKey)
    && (GeminiKeyHeader in h <==> credentials && provider == Gemini)
    && (GeminiKeyHeader in h ==> h[GeminiKeyHeader] == apiKey)
  }

  /** The description above fixes the headers completely: no two different header maps meet it. */
  lemma ProperHeadersUnique(store: Store, h1: Headers, h2: Headers)
    requires ProperHeaders(store, h1) && ProperHeaders(store, h2)
    ensures h1 == h2
  {
    assert h1.Keys == h2.Keys;
  }

  /** Never more than one key header, and a key header only together with the provider header. */
  lemma ProperHeadersBothOrNeither(store: Store, h: Headers)
    requires ProperHeaders(store, h)
    ensures !(OpenAIKeyHeader in h && GeminiKeyHeader in h)
    ensures OpenAIKeyHeader in h || GeminiKeyHeader in h ==> ProviderHeader in h
    ensures ProviderHeader !in h ==> h == map[ContentType := JsonMediaType]
  {
  }

  /** Reads the store when the request is made and fills in the headers one by one. */
  method BuildHeaders(store: Store) returns (headers: Headers)
    ensures ProperHeaders(store, headers)
  {
    var provider := Lookup(store, ProviderKey);
    var apiKey := Lookup(store, KeyFor(provider));
    headers := map[ContentType := JsonMediaType];
    if provider != "" && apiKey != "" {
      headers := headers[ProviderHeader := provider];
      if provider == OpenAI {
        headers := headers[OpenAIKeyHeader := apiKey];
      } else if provider == Gemini {
        headers := headers[GeminiKeyHeader := apiKey];
      }
    }
  }

  /** `response.ok`: a status in the 2xx range. */
  predicate Ok(status: int) {
    200 <= status <= 299
  }

  /**
   * The outcome of the call: a rejected fetch and a non-2xx reply are errors,
   * a 2xx reply yields whatever reading its body yields.
   */
  function ReadResponse(fetched: FetchResult): (r: Result<SuggestionResponse, string>)
    ensures r.Success? ==> fetched.Received? && Ok(fetched.response.status) && fetched.response.json == r
    ensures fetched.Received? && !Ok(fetched.response.status) ==> r == Failure(FetchFailed)
    ensures fetched.Rejected? ==> r == Failure(fetched.reason)
    ensures fetched.Received? && Ok(fetched.response.status) ==> r == fetched.response.json
  {
    match fetched
    case Rejected(reason) => Failure(reason)
    case Received(response) =>
      if !Ok(response.status) then Failure(FetchFailed) else response.json
  }

  /** `getSuggestions`: one POST to `<base>/suggest`, and its outcome. */
  method GetSuggestions(store: Store, env: Option<string>, userInput: string,
                        preferences: Option<string>, cuisineType: Option<string>,
                        fetched: FetchResult)
    returns (request: HttpRequest, result: Result<SuggestionResponse, string>)
    ensures request.verb == "POST" && request.url == SuggestUrl(env)
    ensures ProperHeaders(store, request.headers)
    ensures request.body == Body(userInput, preferences, cuisineType)
    ensures result == ReadResponse(fetched)
  {
    var headers := BuildHeaders(store);
    request := HttpRequest("POST", SuggestUrl(env), headers, Body(userInput, preferences, cuisineType));
    result := ReadResponse(fetched);
  }
}

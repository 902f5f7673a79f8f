/**
 * The request and response records exchanged between the web client and the
 * backend, and the validation the backend applies to them.
 *
 * Each record has a wire form (`Raw...`) in which every field may be absent;
 * `None` stands for a JSON field that is missing or null. Parsing a wire form
 * either yields the typed record or the error the validator raises.
 */
module Schema {
  import opened Wrappers

  const MinInputLength: nat := 1
  const MaxInputLength: nat := 500

  datatype SuggestionRequest = SuggestionRequest(
    userInput: string,
    preferences: Option<string>,
    cuisineType: Option<string>)

  datatype FoodSuggestion = FoodSuggestion(
    name: string,
    description: string,
    ingredients: seq<string>,
    reasoning: string)

  datatype SuggestionResponse = SuggestionResponse(
    suggestions: seq<FoodSuggestion>,
    provider: string)

  datatype RawRequest = RawRequest(
    userInput: Option<string>,
    preferences: Option<string>,
    cuisineType: Option<string>)

  datatype RawSuggestion = RawSuggestion(
    name: Option<string>,
    description: Option<string>,
    ingredients: Option<seq<string>>,
    reasoning: Option<string>)

  datatype RawResponse = RawResponse(
    suggestions: Option<seq<RawSuggestion>>,
    provider: Option<string>)

  /** The length bound on `user_input`, counted in characters. */
  predicate ValidUserInput(s: string) {
    MinInputLength <= |s| <= MaxInputLength
  }

  /**
   * Validation of a request body: `user_input` is required and bounded,
   * `preferences` and `cuisine_type` are optional and default to None.
   */
  function ParseRequest(raw: RawRequest): (r: Result<SuggestionRequest, string>)
    ensures r.Success? <==> raw.userInput.Some? && ValidUserInput(raw.userInput.value)
    ensures r.Success? ==> r.value.userInput == raw.userInput.value
    ensures r.Success? ==> r.value.preferences == raw.preferences && r.value.cuisineType == raw.cuisineType
  {
    match raw.userInput
    case None => Failure("user_input: Field required")
    case Some(u) =>
      if |u| < MinInputLength then Failure("user_input: String should have at least 1 character")
      else if |u| > MaxInputLength then Failure("user_input: String should have at most 500 characters")
      else Success(SuggestionRequest(u, raw.preferences, raw.cuisineType))
  }

  /** The wire form of a request: every field present that has a value. */
  function RequestToRaw(req: SuggestionRequest): RawRequest {
    RawRequest(Some(req.userInput), req.preferences, req.cuisineType)
  }

  /** A valid request survives the trip to the wire and back. */
  lemma RequestRoundTrip(req: SuggestionRequest)
    requires ValidUserInput(req.userInput)
    ensures ParseRequest(RequestToRaw(req)) == Success(req)
  {
  }

  /** Whatever parses is the wire form of what it parses to. */
  lemma ParsedRequestIsFaithful(raw: RawRequest, req: SuggestionRequest)
    requires ParseRequest(raw) == Success(req)
    ensures RequestToRaw(req) == raw && ValidUserInput(req.userInput)
  {
  }

  /** Validation of one suggestion: all four fields are required. */
  function ParseSuggestion(raw: RawSuggestion): (r: Result<FoodSuggestion, string>)
    ensures r.Success? <==>
      raw.name.Some? && raw.description.Some? && raw.ingredients.Some? && raw.reasoning.Some?
    ensures r.Success? ==> SuggestionToRaw(r.value) == raw
  {
    if raw.name.None? then Failure("name: Field required")
    else if raw.description.None? then Failure("description: Field required")
    else if raw.ingredients.None? then Failure("ingredients: Field required")
    else if raw.reasoning.None? then Failure("reasoning: Field required")
    else Success(FoodSuggestion(raw.name.value, raw.description.value, raw.ingredients.value, raw.reasoning.value))
  }

  function SuggestionToRaw(s: FoodSuggestion): RawSuggestion {
    RawSuggestion(Some(s.name), Some(s.description), Some(s.ingredients), Some(s.reasoning))
  }

  lemma SuggestionRoundTrip(s: FoodSuggestion)
    ensures ParseSuggestion(SuggestionToRaw(s)) == Success(s)
  {
  }

  /**
   * Validation of a list of suggestions, item by item in order: the whole list
   * when every item is valid, otherwise the error of the first invalid item.
   */
  function ParseSuggestions(items: seq<RawSuggestion>): (r: Result<seq<FoodSuggestion>, string>)
    ensures r.Success? <==> forall i :: 0 <= i < |items| ==> ParseSuggestion(items[i]).Success?
    ensures r.Success? ==> |r.value| == |items|
    ensures r.Success? ==> forall i :: 0 <= i < |items| ==> ParseSuggestion(items[i]) == Success(r.value[i])
    ensures r.Failure? ==> exists i ::
      && 0 <= i < |items| && ParseSuggestion(items[i]) == Failure(r.error)
      && forall j :: 0 <= j < i ==> ParseSuggestion(items[j]).Success?
  {
    if items == [] then Success([])
    else
      match ParseSuggestion(items[0])
      case Failure(e) => Failure(e)
      case Success(s) =>
        match ParseSuggestions(items[1..])
        case Failure(e) =>
          var k :|
            && 0 <= k < |items[1..]| && ParseSuggestion(items[1..][k]) == Failure(e)
            && forall j :: 0 <= j < k ==> ParseSuggestion(items[1..][j]).Success?;
          assert ParseSuggestion(items[k + 1]) == Failure(e);
          assert forall j :: 1 <= j < k + 1 ==> items[j] == items[1..][j - 1];
          Failure(e)
        case Success(rest) =>
          assert forall i :: 1 <= i < |items| ==> items[i] == items[1..][i - 1];
          Success([s] + rest)
  }

  /** Validation of a response: both `suggestions` and `provider` are required. */
  function ParseResponse(raw: RawResponse): (r: Result<SuggestionResponse, string>)
    ensures r.Success? ==> raw.suggestions.Some? && raw.provider.Some?
    ensures r.Success? ==> r.value.provider == raw.provider.value
    ensures r.Success? ==> ParseSuggestions(raw.suggestions.value) == Success(r.value.suggestions)
    ensures raw.suggestions.Some? && raw.provider.Some? && ParseSuggestions(raw.suggestions.value).Success? ==> r.Success?
  {
    match raw.suggestions
    case None => Failure("suggestions: Field required")
    case Some(items) =>
      match raw.provider
      case None => Failure("provider: Field required")
      case Some(p) =>
        match ParseSuggestions(items)
        case Failure(e) => Failure(e)
        case Success(s) => Success(SuggestionResponse(s, p))
  }
}

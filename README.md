# Food Suggestion AI — a verified model of its core

Food Suggestion AI is a chat application. A web page sends what the user wants to eat to an HTTP backend, which asks an AI vendor (OpenAI or Google Gemini) for three dish suggestions. This project models the sequential logic of both halves and proves properties about it.

**Web client**
- `Conversation`: the chat page. It holds the message log, the text box and the loading flag. The submit guard, the user turn, the assistant turn and "New chat" are modelled. The asynchronous submit is split into atomic steps: `Begin` tests the guard and, through `Accept`, records the user turn; `Request` issues the call and, through `Settle`, records the assistant turn.
- `Credentials`: the settings dialog and the browser's local storage, modelled as a string-to-string map. It covers opening the dialog, the provider buttons, "Save", "Clear All" and the Save-enabled guard.
- `Client`: the call to `/suggest`. It covers the URL, the headers read from storage, the JSON body, and the rule that a non-OK reply is an error.

**Backend**
- `Schema`: validation of the request, of each suggestion and of the response.
- `AiService`: the prompt builder, the clean-up of code fences in Gemini's reply, the two vendor routes with their error prefixes, and the dispatch between them.
- `Backend`: the HTTP handlers.
  - `/suggest` resolves the provider and keys from headers, falling back to configuration. It then checks the key and maps failures to HTTP errors.
  - `/models/gemini` filters the listed models to those that can generate content and counts them.
  - `/health` reports which keys are configured.
- `Config`: the default settings.

**Shared modules**
- `Text`: trimming, with the whitespace predicate as a parameter, and decimal numerals.
- `Wrappers`: `Option` and `Result`.

The network, the vendors' SDKs and the JSON parser are inputs, not modelled code:
- what `fetch` delivered is a `Client.FetchResult`;
- a vendor's reply is a `Result<string, string>`, either its text or the message of the exception it raised;
- `json.loads` is a function parameter `parse`;
- the vendor's list of models is a `Result<seq<ModelInfo>, string>`;
- the whitespace set of JavaScript's `trim` and Python's `strip` is a parameter `isSpace`, so no particular Unicode set is claimed.

## Model

| member | source | states |
|---|---|---|
| Conversation.Chat.constructor | apps/food-suggestion-ai-web/app/page.tsx:11-13 | the page starts with an empty log, an empty box and no request outstanding |
| Conversation.Chat.CanSubmit | apps/food-suggestion-ai-web/app/page.tsx:271 | the Send button is enabled exactly when no request is outstanding and the box holds some non-whitespace character |
| Conversation.Chat.EditInput | apps/food-suggestion-ai-web/app/page.tsx:256 | typing or a preset prompt sets the box to the given text and touches nothing else |
| Conversation.Chat.Begin | apps/food-suggestion-ai-web/app/page.tsx:46-61 | a rejected submit changes nothing and issues no request; an accepted one appends exactly one user turn holding the untrimmed text, keeps earlier turns as a prefix, empties the box, sets loading, and issues the request with the text as typed |
| Conversation.Chat.Accept | apps/food-suggestion-ai-web/app/page.tsx:48-58 | an accepted submit appends the user turn with the text as typed, empties the box and sets loading, keeping every turn well formed |
| Conversation.Chat.Settle | apps/food-suggestion-ai-web/app/page.tsx:60-83 | exactly one assistant turn for the outcome is appended, loading is cleared in both outcomes, and every turn in the log stays well formed |
| Conversation.Request | apps/food-suggestion-ai-web/app/page.tsx:60-83 | a POST request for the typed text goes to `<base>/suggest` with the stored credentials, and then exactly one assistant turn for its outcome is appended and loading is cleared |
| Conversation.Chat.NewChat | apps/food-suggestion-ai-web/app/page.tsx:38-42 | whatever the prior state, the log and the box become empty |
| Conversation.HandleSubmit | apps/food-suggestion-ai-web/app/page.tsx:44-84 | the whole handler: nothing happens unless the guard passes; otherwise it sends a POST request to `<base>/suggest` with the stored credentials and the typed text as the body, then appends one user turn and one assistant turn for the outcome, and ends idle with an empty box |
| Conversation.Reply | apps/food-suggestion-ai-web/app/page.tsx:63-80 | the reply is an assistant turn, and it carries suggestions exactly when the request succeeded |
| Conversation.ReplyReveals | apps/food-suggestion-ai-web/app/page.tsx:63-80 | a failure gives the apology with no suggestions and only a failure gives the apology; a success carries its suggestions in order and the text "Here are N delicious suggestions for you:" with N their number |
| Conversation.ReplyWellFormed | apps/food-suggestion-ai-web/app/page.tsx:63-80 | every reply is well formed: an apology without suggestions, or a success text whose count matches its suggestions |
| Conversation.SuccessTextInjective | apps/food-suggestion-ai-web/app/page.tsx:66-77 | a success text is never the apology, and different counts give different success texts |
| Conversation.SuccessTextForTwo | apps/food-suggestion-ai-web/app/page.tsx:66 | the success text for two suggestions is "Here are 2 delicious suggestions for you:" |
| Conversation.SuccessText | apps/food-suggestion-ai-web/app/page.tsx:66 | a success text is "Here are ", a decimal numeral, then " delicious suggestions for you:", and the numeral reads back as the number of suggestions and has no leading zero: a numeral starting with 0 is the single digit "0" for no suggestions |
| Conversation.UserTurn | apps/food-suggestion-ai-web/app/page.tsx:48-53 | the user's turn is a well-formed user message whose content is the text exactly as typed |
| Conversation.WellFormedAppend | apps/food-suggestion-ai-web/app/page.tsx:55 | appending a well-formed turn to a well-formed log keeps it well formed |
| Credentials.KeyFor | apps/food-suggestion-ai-web/components/ApiKeyModal.tsx:35 | a provider's key slot is named `<provider>_api_key`: the provider name, then `_api_key`, and nothing else |
| Credentials.KeyForIsNotProviderKey | apps/food-suggestion-ai-web/components/ApiKeyModal.tsx:34-35 | no provider's key slot is the `ai_provider` slot, so the two writes of Save never overwrite each other |
| Credentials.KeyForInjective | apps/food-suggestion-ai-web/components/ApiKeyModal.tsx:35 | different providers keep their keys in different slots |
| Credentials.Lookup | apps/food-suggestion-ai-web/lib/api.ts:11-12 | `getItem(key) \|\| ""` is the stored value, or "" when the slot is missing |
| Credentials.Saved | apps/food-suggestion-ai-web/components/ApiKeyModal.tsx:33-35 | Save writes `ai_provider` and `<provider>_api_key` with the selected provider and key, and leaves every other slot as it was |
| Credentials.Cleared | apps/food-suggestion-ai-web/components/ApiKeyModal.tsx:43-46 | Clear removes exactly `ai_provider`, `openai_api_key` and `gemini_api_key`, and keeps every other slot |
| Credentials.ClearIdempotent | apps/food-suggestion-ai-web/components/ApiKeyModal.tsx:43-46 | clearing twice gives the same store as clearing once |
| Credentials.ClearForgetsCredentials | apps/food-suggestion-ai-web/components/ApiKeyModal.tsx:43-46 | after Clear no provider is remembered and neither provider has a key |
| Credentials.Restored | apps/food-suggestion-ai-web/components/ApiKeyModal.tsx:19-28 | opening restores something exactly when a non-empty provider is stored, namely that provider and its stored key (or "") |
| Credentials.SaveRestoreRoundTrip | apps/food-suggestion-ai-web/components/ApiKeyModal.tsx:16-36 | after Save, opening the dialog restores the same provider and key |
| Credentials.ClearRestoresNothing | apps/food-suggestion-ai-web/components/ApiKeyModal.tsx:16-49 | after Clear, opening the dialog restores nothing |
| Credentials.ApiKeyModal.constructor | apps/food-suggestion-ai-web/components/ApiKeyModal.tsx:12-14 | the dialog starts with Gemini selected, an empty key and nothing saved |
| Credentials.ApiKeyModal.Open | apps/food-suggestion-ai-web/components/ApiKeyModal.tsx:16-31 | opening leaves the store unchanged and resets `saved`; a remembered provider and its key are loaded, and with none remembered the provider and key stay as they were |
| Credentials.ApiKeyModal.EditKey | apps/food-suggestion-ai-web/components/ApiKeyModal.tsx:122 | typing sets the key field and nothing else |
| Credentials.ApiKeyModal.SelectProvider | apps/food-suggestion-ai-web/components/ApiKeyModal.tsx:90-106 | a provider button selects that provider and loads its stored key, or "" when none is stored |
| Credentials.ApiKeyModal.SaveEnabled | apps/food-suggestion-ai-web/components/ApiKeyModal.tsx:180 | Save is enabled exactly when the key has some non-whitespace character |
| Credentials.ApiKeyModal.Save | apps/food-suggestion-ai-web/components/ApiKeyModal.tsx:33-36 | the store becomes the saved store (two slots written, all others unchanged) and `saved` is set |
| Credentials.ApiKeyModal.Clear | apps/food-suggestion-ai-web/components/ApiKeyModal.tsx:43-49 | the store becomes the cleared store, the key field is emptied, `saved` is reset and the selection is kept |
| Credentials.SaveThenReopen | apps/food-suggestion-ai-web/components/ApiKeyModal.tsx:16-36 | saving and then reopening the dialog leaves the selected provider and key as they were saved, the store as Save left it, and `saved` reset by the reopening |
| Credentials.ClearTwice | apps/food-suggestion-ai-web/components/ApiKeyModal.tsx:43-49 | pressing Clear twice leaves the same store and fields as pressing it once |
| Client.ApiBaseUrl | apps/food-suggestion-ai-web/lib/api.ts:3 | the base URL is the configured one when it is set and non-empty, and `http://localhost:8000` otherwise |
| Client.SuggestUrl | apps/food-suggestion-ai-web/lib/api.ts:28 | the request URL is the base URL followed by `/suggest` |
| Client.Body | apps/food-suggestion-ai-web/lib/api.ts:31-35 | the body is the wire form of the request with the given input, preferences and cuisine, whatever the input's length; it passes the backend's validation exactly when the input is 1 to 500 characters long, and then arrives as the request with the given input, preferences and cuisine |
| Client.ProperHeadersUnique | apps/food-suggestion-ai-web/lib/api.ts:14-26 | the header rules fix the header map completely for a given store |
| Client.ProperHeadersBothOrNeither | apps/food-suggestion-ai-web/lib/api.ts:19-26 | there is never more than one key header; a key header comes only with the provider header; and without credentials the headers are exactly the JSON content type |
| Client.BuildHeaders | apps/food-suggestion-ai-web/lib/api.ts:11-26 | the headers always hold the JSON content type; the provider and key headers appear only when both the stored provider and its key are non-empty; the key header is named after "openai" or "gemini"; and any other provider gets the provider header without a key header |
| Client.ReadResponse | apps/food-suggestion-ai-web/lib/api.ts:38-42 | a rejected fetch or a non-2xx reply is an error with no result; a 2xx reply yields exactly the outcome of reading its body, and only a 2xx reply can succeed |
| Client.GetSuggestions | apps/food-suggestion-ai-web/lib/api.ts:5-43 | one POST to `<base>/suggest` with the proper headers and the body built from the arguments, and its outcome as read from the reply |
| Text.Trim | apps/food-suggestion-ai-backend/app/ai_service.py:86 | trimming never lengthens the text and leaves no whitespace at either edge |
| Text.TrimEmpty | apps/food-suggestion-ai-web/app/page.tsx:46 | the trimmed text is empty exactly when the text is all whitespace |
| Text.Blank | apps/food-suggestion-ai-web/app/page.tsx:46 | `!s.trim()` holds exactly when every character of the text is whitespace |
| Text.TrimPadded | apps/food-suggestion-ai-backend/app/ai_service.py:96 | trimming whitespace padding around a text without edge whitespace gives back that text |
| Text.NatToString | apps/food-suggestion-ai-web/app/page.tsx:66 | the decimal numeral of a count is a non-empty string of digits without a leading zero; a numeral starting with 0 is exactly "0", the numeral of 0 |
| Text.NatToStringRoundTrip | apps/food-suggestion-ai-web/app/page.tsx:66 | reading the numeral back gives the count |
| Text.NatToStringInjective | apps/food-suggestion-ai-web/app/page.tsx:66 | different counts have different numerals |
| Schema.ParseRequest | apps/food-suggestion-ai-backend/app/models.py:8-21 | a request is accepted exactly when `user_input` is present and 1 to 500 characters long; its fields are then copied, and the optional fields stay absent when not given |
| Schema.RequestRoundTrip | apps/food-suggestion-ai-backend/app/models.py:5-21 | a valid request survives the trip to its wire form and back |
| Schema.ParsedRequestIsFaithful | apps/food-suggestion-ai-backend/app/models.py:5-21 | whatever is accepted is exactly the wire form of the request it is accepted as |
| Schema.ParseSuggestion | apps/food-suggestion-ai-backend/app/models.py:24-30 | a suggestion is accepted exactly when name, description, ingredients and reasoning are all present, and it then holds them unchanged |
| Schema.SuggestionRoundTrip | apps/food-suggestion-ai-backend/app/models.py:24-30 | a suggestion survives the trip to its wire form and back |
| Schema.ParseSuggestions | apps/food-suggestion-ai-backend/app/ai_service.py:71 | a list is accepted exactly when every item is, giving the items in order; otherwise the error is that of the first invalid item, every item before it being valid |
| Schema.ParseResponse | apps/food-suggestion-ai-backend/app/models.py:33-40 | a response is accepted exactly when both `suggestions` and `provider` are present and every suggestion is valid |
| AiService.PromptSections | apps/food-suggestion-ai-backend/app/ai_service.py:25-51 | the prompt is the fixed introduction, then the user input, then the preferences line only if the preferences are truthy, then the cuisine line only if the cuisine is truthy, then the fixed format text; preferences always come before cuisine |
| AiService.PromptFraming | apps/food-suggestion-ai-backend/app/ai_service.py:25-51 | the prompt starts with the introduction and the user input, and ends with the format text |
| AiService.PromptDeterminesInput | apps/food-suggestion-ai-backend/app/ai_service.py:25-27 | without optional sections, equal prompts come from equal user inputs |
| AiService.BuildPrompt | apps/food-suggestion-ai-backend/app/ai_service.py:23-51 | growing the prompt piece by piece gives the prompt described above |
| AiService.DropPrefix | apps/food-suggestion-ai-backend/app/ai_service.py:89-92 | a leading fence is dropped when present, and the text is otherwise unchanged |
| AiService.DropSuffix | apps/food-suggestion-ai-backend/app/ai_service.py:93-94 | a trailing fence is dropped when present, and the text is otherwise unchanged |
| AiService.StripFence | apps/food-suggestion-ai-backend/app/ai_service.py:86-96 | the clean-up runs its steps in this order: strip, drop a leading "```json", drop a leading "```", drop a trailing "```", strip |
| AiService.UnfencedNoLonger | apps/food-suggestion-ai-backend/app/ai_service.py:86-96 | the cleaned text is never longer than the reply |
| AiService.UnfencedPlain | apps/food-suggestion-ai-backend/app/ai_service.py:86-96 | text without edge whitespace that neither starts nor ends with "```" comes back unchanged |
| AiService.UnfencedJsonBlock | apps/food-suggestion-ai-backend/app/ai_service.py:89-96 | "```json\n" + x + "\n```" cleans to x, for x without edge whitespace |
| AiService.UnfencedBareBlock | apps/food-suggestion-ai-backend/app/ai_service.py:91-96 | "```\n" + x + "\n```" cleans to x, for x without edge whitespace |
| AiService.SuggestionsOf | apps/food-suggestion-ai-backend/app/ai_service.py:99 | a payload without a `suggestions` key yields the empty list; otherwise its items are validated |
| AiService.Decode | apps/food-suggestion-ai-backend/app/ai_service.py:97-100 | a vendor failure and a parser failure pass through with their own messages; the outcome succeeds exactly when the reply arrived, parsed, and its suggestions validated, and is then those suggestions; a validation failure carries the validator's error |
| AiService.CleanReply | apps/food-suggestion-ai-backend/app/ai_service.py:86-96 | a vendor failure passes through unchanged; a reply text becomes its fence-free clean-up, which is never longer than the reply |
| AiService.Prefixed | apps/food-suggestion-ai-backend/app/ai_service.py:74-75 | a failure is re-raised with the route's prefix in front of its message, and a success passes through unchanged |
| AiService.SuggestOpenAI | apps/food-suggestion-ai-backend/app/ai_service.py:53-75 | with an OpenAI key, the configured model is sent the system message and the prompt, and the outcome is the decoded reply with failures prefixed "OpenAI API error: "; without a key no client exists, nothing is sent and the route fails with that prefix |
| AiService.SuggestGemini | apps/food-suggestion-ai-backend/app/ai_service.py:77-103 | the configured Gemini model is sent the prompt; the reply is cleaned of fences, then decoded, and failures are prefixed "Gemini API error: " |
| AiService.RouteOutcome | apps/food-suggestion-ai-backend/app/ai_service.py:105-110 | every failure carries the prefix of the route that was taken, and a success needs a vendor reply |
| AiService.Suggest | apps/food-suggestion-ai-backend/app/ai_service.py:105-110 | provider "gemini" takes the Gemini route and every other value the OpenAI route, sending the same prompt either way |
| Backend.Or | apps/food-suggestion-ai-backend/app/main.py:101 | with Python's `or`, the header value is used when present and non-empty, and the configured value otherwise |
| Backend.Resolve | apps/food-suggestion-ai-backend/app/main.py:101-129 | provider and keys come from the headers or the configuration, as above; the model names, the application name and `debug` are copied unchanged |
| Backend.KeyCheck | apps/food-suggestion-ai-backend/app/main.py:108-118 | the check fails exactly for "openai" without an OpenAI key or "gemini" without a Gemini key, each with status 500 and its own detail; any other provider passes unchecked |
| Backend.HeaderCredentialsSuffice | apps/food-suggestion-ai-backend/app/main.py:101-118 | a provider header with a non-empty key header for it passes the check whatever is configured |
| Backend.DefaultsNeedHeaders | apps/food-suggestion-ai-backend/app/main.py:101-112 | with the default configuration and no headers, the request fails with the OpenAI "not configured" error |
| Backend.SuggestFood | apps/food-suggestion-ai-backend/app/main.py:99-148 | a failed key check is returned unchanged and nothing is sent; otherwise a success is answered with the suggestions and the resolved provider, and any other failure becomes a 500 prefixed "Error generating suggestions: "; every error is a 500; after the check, provider "gemini" sends the prompt to the configured Gemini model, and any other provider sends the system message and the prompt to the configured OpenAI model when an OpenAI key is resolved, and nothing without one |
| Backend.GenerativeModelsMembers | apps/food-suggestion-ai-backend/app/main.py:59-66 | the filter keeps exactly the models that support `generateContent` |
| Backend.GenerativeModelsConcat | apps/food-suggestion-ai-backend/app/main.py:59-66 | filtering distributes over concatenation, so kept models stay in their listed order |
| Backend.ListGeminiModels | apps/food-suggestion-ai-backend/app/main.py:47-78 | without a Gemini key the result is a 500 "Gemini API key not configured"; a failed listing is a 500 prefixed "Error fetching models: "; otherwise the result is the generative models in order, with `count` equal to their number |
| Backend.HealthCheck | apps/food-suggestion-ai-backend/app/main.py:35-43 | the report names the configured provider, and marks each key configured exactly when it is non-empty |
| Backend.HealthMatchesKeyCheck | apps/food-suggestion-ai-backend/app/main.py:35-43 | for provider "openai" or "gemini", a request without headers passes the key check exactly when the health report marks that provider's key configured |

## Left out

- The markup is not modelled: rendering, CSS classes, scrolling, textarea auto-resizing, the sidebar, the modal's markup and `SuggestionCard.tsx`. None of it is application logic.
- Message ids and timestamps are not modelled, because they come from the clock.
- The dialog's one-second auto-close after Save is not modelled, because it is a timer.
- The page's asynchronous behaviour is reduced to atomic steps: `Begin` with `Accept`, then `Request` with `Settle`. A New-chat reset while a request is outstanding is captured: `NewChat` keeps `isLoading`, so a later `Settle` appends the reply to the emptied log, as the source's functional `setMessages` update does. Overlapping requests are concurrency, which the model does not capture.
- `fetch`, `response.json()` and `json.loads` are inputs, not modelled code. A response body whose JSON lacks `suggestions` is one of the failures `fetched` can carry.
- The OpenAI and Gemini SDK calls, `genai.configure` and `genai.list_models` are foreign calls. Their results are inputs, and `temperature` and `response_format` are not modelled.
- The FastAPI application, CORS, dependency injection and uvicorn are framework wiring and are not modelled. So is the mapping of a validation failure to HTTP 422.
- Schema.ParseRequest: its error messages stand in for the pydantic library's. Only whether a request is accepted is faithful.
- Schema.ParseSuggestion: its messages ("name: Field required" and so on) stand in for pydantic's `ValidationError` text, which names the model and lists every missing field. They reach the `/suggest` 500 detail, so for a vendor reply that fails validation only the prefixes of that detail ("Error generating suggestions: " and the route's prefix) match the source.
- The root endpoint and the health endpoint's `status` field are fixed strings and are not modelled.
- Only config.py's default values are modelled. Loading settings from the environment or `.env`, and caching them, is plumbing.
- Schema.ParseRequest: the length of `user_input` is counted in Dafny characters, not in Python code points. The two differ for text outside the Basic Multilingual Plane when characters are UTF-16 units.
- Trimming takes the whitespace set as a parameter. JavaScript's `trim` and Python's `strip` use slightly different sets, and the model claims neither.
- Backend.ListGeminiModels: a listing that fails part-way is modelled as failing before any model is seen. The result is the same, since the handler discards the partial list.

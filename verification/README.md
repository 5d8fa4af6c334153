# latchlm provider layer, modelled in Dafny

latchlm puts three LLM services (Google Gemini, OpenAI and OpenRouter) behind
one asynchronous interface, `AiProvider`. A caller hands every provider the
same type-erased model value (`&dyn AiModel`) and a text prompt (`AiRequest`).
Each provider then does the following:

- It narrows the model value back to its own model type, or refuses it with
  `InvalidModelError`.
- It builds an HTTP request with its own URL, headers and JSON body.
- It turns the reply into the shared `AiResponse` (text plus token usage), or
  into one of the five shared error kinds:
  - `RequestError`: transport failure;
  - `ApiError`: a non-2xx status together with the body text;
  - `ParseError`: a body that does not decode;
  - `InvalidModelError`;
  - `ProviderError`: a builder that is missing its client or key, or an
    error event in a stream.
- For streaming, it turns a server-sent-event stream into a sequence of such
  results.

The fixed model catalogues of Gemini and OpenAI are enums annotated with
`#[model(id = …, name = …)]`. A procedural macro, `AiModel`, derives their
wire ids, parsing, serde, variant list and `ModelId`s.

The model has one module per source file. Each module is split the way the
source is:

| module | models |
|---|---|
| `Core`, `CoreError` | the shared types: `ModelId` and its derived order, `TokenUsage`, and the five-kind `Error` with its messages |
| `ModelDerive`, `Catalog` | the derive macro: attribute extraction, the unique-id check, and the generated `as_ref` / `try_from` / serde / `variants` / `model_id` |
| `GeminiModels`, `OpenaiModels`, `OpenrouterModels` | the concrete model types. The two enums are given by their declared tables. |
| `AnyModel` | `dyn AiModel` as a closed sum of the three model types plus `Foreign`, any other type implementing the trait; `downcast` is a match on the variant |
| `Http`, `Env`, `Json` | the boundary to the transport, the environment and JSON |
| `Gemini`, `Openai`, `Openrouter` | each client and its builder, requests, SSE decoding, and `send_request` / `send_streaming` |
| `GeminiResponses`, `OpenaiResponses`, `OpenrouterResponses` | the wire response types and their conversion to `AiResponse` |
| `GeminiSettings` | the older Gemini client in `gemini/src/settings.rs`, which reads its body chunk by chunk |
| `Provider` | `AiProvider` over the three clients, and the forwarding impls for `&T`, `&mut T`, `Box<T>` and `Arc<T>` |

The model is built as follows:

- The HTTP transport is a function parameter: `HttpCall -> HttpReply` for
  buffered replies, and `HttpCall -> StreamReply` for event streams.
- A `StreamReply` carries the events after SSE framing: either an event's
  data or a stream error.
- JSON decoding into each provider's response types is a parameter
  `string -> Result<T, string>`.
- Builders are classes whose setters update fields.
- The macro's attribute loop and the legacy client's chunk loop are methods
  with loops, proved equal to a function that specifies them.

## Behaviour of the code worth noting

- Gemini's `streaming_request` never checks the HTTP status
  (gemini/src/lib.rs:334-346). An error status yields whatever events the
  body holds, not an `ApiError`. OpenRouter does check it.
- OpenRouter does not end the stream at `[DONE]`. It drops every event whose
  data contains `[DONE]` anywhere, and keeps decoding the events after it
  (openrouter/src/lib.rs:479-481).
- In a stream, a decode failure is one `ParseError` element, and the stream
  goes on (gemini/src/lib.rs:347-369, openrouter/src/lib.rs:456-484).
- OpenAI does not narrow by type: it parses the model's wire id
  (openai/src/lib.rs:318-321). The model takes that parse to be the
  catalogue lookup the derive generates (see `Openai.Narrow` under Left
  out). On that reading, a model of any type whose id is an OpenAI id is
  accepted. For example, `OpenrouterModel::new("o3")` is accepted as `Gpto3`
  (`Openai.NarrowAcceptsAnyTypeWithOpenaiId`).
- OpenRouter's `models` listing sends a GET with no headers at all, so it
  has no authorization.
- `OpenrouterError::HeaderParseError` is declared and converted, but never
  produced. A header value that does not parse panics instead (see Left out).

## Model

| member | source | states |
|---|---|---|
| Core.CompareModelIdsEqual | core/src/lib.rs:73-79 | the derived order of `ModelId` says `Equal` exactly for equal ids |
| Core.CompareModelIdsReverse | core/src/lib.rs:73-79 | swapping the arguments reverses the derived order (antisymmetry) |
| Core.CompareModelIdsTransitive | core/src/lib.rs:73-79 | the derived order is transitive |
| Core.CompareModelIdsIdFirst | core/src/lib.rs:73-79 | the order is lexicographic with the `id` field first: distinct ids decide the order |
| Core.DisplayModelIdIgnoresId | core/src/lib.rs:81-85 | a `ModelId` displays as its name alone; ids play no part |
| Core.DefaultTokenUsage | core/src/lib.rs:104-112 | the default token usage has all three counts absent |
| CoreError.DisplayDeterminesKind | core/src/error.rs:11-26 | the message of an error determines which of the five kinds it is |
| CoreError.ParseErrorDisplayIgnoresDetail | core/src/error.rs:18-19 | every parse error prints the same fixed message, whatever the decoder reported |
| CoreError.InvalidModelDisplay | core/src/error.rs:21-22 | an invalid-model error prints "Invalid model name: " followed by the model |
| CoreError.ProviderErrorDisplay | core/src/error.rs:24-25 | a provider error prints "Provider settings error: <provider> : <error>" |
| CoreError.InvalidModelDisplayInjective | core/src/error.rs:21-22 | different rejected model names give different messages |
| CoreError.ApiErrorDisplayInjective | core/src/error.rs:15-16 | status and message can be recovered from an API error's text |
| CoreError.ProviderErrorDisplayAmbiguous | core/src/error.rs:24-25 | provider and error cannot be recovered from the text: two different provider errors print alike |
| Env.Var | gemini/src/lib.rs:111-116 | looking up the key variable succeeds exactly when it is set to valid Unicode, and yields its value; an unset variable is `NotPresent` |
| Catalog.Lookup | macros/src/lib.rs:84-91 | the match arms of `try_from` find the first variant whose id is the string, and none exactly when no id is |
| Catalog.ModelIdOf | macros/src/lib.rs:118-128 | a variant's `ModelId` carries its wire id |
| Catalog.Variants | macros/src/lib.rs:130-142 | `variants()` lists one `ModelId` per variant, in declaration order |
| Catalog.TryFromAsRef | macros/src/lib.rs:162-170 | in a table with unique ids, parsing a variant's wire id gives that variant back |
| Catalog.TryFromSound | macros/src/lib.rs:162-170 | whatever `try_from` accepts is the wire id of the variant it returns |
| Catalog.TryFromUnknown | macros/src/lib.rs:162-170 | `try_from` fails exactly for strings that are no declared id, with `InvalidModelError` of the string |
| Catalog.AsRefInjective | macros/src/lib.rs:154-160 | in a table with unique ids, distinct variants have distinct wire ids |
| Catalog.SerdeRoundTrip | macros/src/lib.rs:172-210 | deserialising what a variant serialises to gives the variant back |
| Catalog.DeserializeUnknown | macros/src/lib.rs:183-210 | deserialising fails exactly on unknown strings, with `unknown_variant` naming the expected ids |
| Catalog.VariantsAreCatalog | macros/src/lib.rs:212-220 | the variant list carries each variant's id and name, and its ids are pairwise distinct |
| Catalog.ExpectingNamesEveryId | macros/src/lib.rs:111-116 | the deserialiser's `expecting` text names every declared id |
| Catalog.NotInVariants | macros/src/lib.rs:212-220 | a string unequal to every listed id is no declared id |
| ModelDerive.ExtractModelAttributes | macros/src/lib.rs:226-309 | the attribute-walking loops compute exactly the specified id/name extraction, including every error |
| ModelDerive.CollectEntries | macros/src/lib.rs:60-68 | collection succeeds exactly when every variant's attributes do, with one entry per variant in order |
| ModelDerive.IdSetMembers | macros/src/lib.rs:70-76 | the set built from the ids holds exactly the declared ids |
| ModelDerive.IdSetSize | macros/src/lib.rs:70-76 | the id set is as large as the variant list exactly when the ids are unique, which is the macro's duplicate check |
| ModelDerive.DeriveTableSpec | macros/src/lib.rs:53-76 | the derive rejects a non-enum, and succeeds exactly when every variant is annotated and all ids are distinct |
| ModelDerive.Declaration | macros/src/lib.rs:226-309 | an enum declared from a table has one annotated variant per entry |
| ModelDerive.DeriveDeclaration | macros/src/lib.rs:53-76 | deriving an enum declared from a table gives the table back, or `RepeatedId` when two ids clash |
| ModelDerive.ApplyAttributesSkipsForeign | macros/src/lib.rs:232-235 | an attribute other than `model` has no effect anywhere in the list |
| ModelDerive.ExtractIgnoresForeignAttribute | macros/src/lib.rs:232-235 | a variant's extracted id and name do not depend on its non-`model` attributes |
| ModelDerive.LaterValueWins | macros/src/lib.rs:243-284 | a key given twice keeps its later value |
| ModelDerive.ExtractNeedsBothKeys | macros/src/lib.rs:299-306 | a successful extraction implies the variant's attributes mention both `id` and `name` |
| ModelDerive.KeySetOnlyByMeta | macros/src/lib.rs:241-298 | an id or name is only ever set by a meta item with that key |
| ModelDerive.KeySetOnlyByAttribute | macros/src/lib.rs:226-309 | across a variant's attributes, an id or name is only set by a `model` attribute naming it |
| ModelDerive.MissingIdRejected | macros/tests/compile_fail/missing_id.rs:8 | a variant with a name but no id is rejected with the missing-id error |
| ModelDerive.MissingNameRejected | macros/tests/compile_fail/missing_name.rs:8 | a variant with an id but no name is rejected with the missing-name error |
| ModelDerive.UnsupportedKeyRejected | macros/src/lib.rs:285-290 | any key other than `id` and `name` is rejected and names the key |
| GeminiModels.AsRef | gemini/src/lib.rs:23-39 | a variant's wire id is the id declared in its attribute |
| GeminiModels.ModelIdOf | gemini/src/lib.rs:23-39 | a variant's `ModelId` is its declared id and name |
| GeminiModels.TableUnique | gemini/src/lib.rs:23-39 | the declared Gemini ids are pairwise distinct |
| GeminiModels.DeclarationDerives | gemini/src/lib.rs:23-39 | the macro accepts the Gemini enum as declared and derives exactly its table |
| GeminiModels.WireIds | gemini/src/lib.rs:23-39 | the five Gemini wire ids and a display name are the declared strings |
| GeminiModels.DisplayParses | gemini/src/lib.rs:41-45 | what `Display` prints parses back to the same model |
| GeminiModels.TryFromAsRef | gemini/src/lib.rs:431-441 | every Gemini model's wire id parses back to the model |
| GeminiModels.TryFromSound | gemini/src/lib.rs:23-39 | parsing accepts only the wire id of the model it returns |
| GeminiModels.TryFromInvalid | gemini/src/lib.rs:444-454 | an id not in `variants()` is refused with "Invalid model name: <id>" |
| GeminiModels.VariantsComplete | gemini/src/lib.rs:23-39 | `variants()` lists all five models' `ModelId`s in declaration order |
| GeminiModels.SerdeRoundTrip | gemini/src/lib.rs:23-39 | serde of a Gemini model round-trips |
| OpenaiModels.AsRef | openai/src/lib.rs:21-49 | a variant's wire id is the id declared in its attribute |
| OpenaiModels.ModelIdOf | openai/src/lib.rs:21-49 | a variant's `ModelId` is its declared id and name |
| OpenaiModels.TableUnique | openai/src/lib.rs:21-49 | the thirteen declared OpenAI ids are pairwise distinct |
| OpenaiModels.DeclarationDerives | openai/src/lib.rs:21-49 | the macro accepts the OpenAI enum as declared and derives exactly its table |
| OpenaiModels.WireIds | openai/src/lib.rs:21-49 | the OpenAI wire ids and a display name are the declared strings |
| OpenaiModels.DisplayParses | openai/src/lib.rs:51-55 | what `Display` prints parses back to the same model |
| OpenaiModels.TryFromAsRef | openai/src/lib.rs:334-352 | every OpenAI model's wire id parses back to the model |
| OpenaiModels.TryFromSound | openai/src/lib.rs:21-49 | parsing accepts only the wire id of the model it returns |
| OpenaiModels.TryFromInvalid | openai/src/lib.rs:355-365 | an id not in `variants()` is refused with "Invalid model name: <id>" |
| OpenaiModels.VariantsComplete | openai/src/lib.rs:21-49 | `variants()` lists all thirteen models' `ModelId`s in declaration order |
| OpenaiModels.SerdeRoundTrip | openai/src/lib.rs:21-49 | serde of an OpenAI model round-trips |
| OpenaiModels.NoIdStartsWithGe | openai/src/lib.rs:21-49 | no string beginning "ge", and so no Gemini id, parses as an OpenAI model |
| OpenrouterModels.New | openrouter/src/lib.rs:41-45 | a model made from a name has that name as its wire id |
| OpenrouterModels.ModelIdOf | openrouter/src/lib.rs:29-39 | an OpenRouter model's `ModelId` uses its name as both id and display name |
| OpenrouterModels.NameIsEverything | openrouter/src/lib.rs:21-45 | wire id, `ModelId` and display text of `new(s)` are all `s` |
| OpenrouterModels.AsRefInjective | openrouter/src/lib.rs:23-27 | two OpenRouter models with the same wire id are the same model |
| AnyModel.DowncastGemini | core/src/lib.rs:66-70 | downcasting to `GeminiModel` succeeds exactly when the value is one, and returns that same value |
| AnyModel.DowncastOpenai | core/src/lib.rs:66-70 | downcasting to `OpenaiModel` succeeds exactly when the value is one, and returns that same value |
| AnyModel.DowncastOpenrouter | core/src/lib.rs:66-70 | downcasting to `OpenrouterModel` succeeds exactly when the value is one, and returns that same value |
| AnyModel.DowncastRoundTrip | core/src/lib.rs:66-70 | erasing a model and downcasting to its own type gives it back |
| AnyModel.DowncastExclusive | core/src/lib.rs:66-70 | at most one downcast succeeds, and none does for a foreign model type |
| AnyModel.ModelIdCarriesWireId | core/src/lib.rs:61-64 | for every provider's model, the `ModelId`'s id is the wire id |
| Http.Receive | gemini/src/lib.rs:274-299 | the shared reply handling: transport and body-read failures are `RequestError`, a non-2xx status is `ApiError` with the body, an undecodable body is `ParseError`, and success exactly when all three pass |
| Http.ReceiveJson | openrouter/src/lib.rs:507-517 | `.json()` decoding succeeds exactly as `Receive` does, but a decode failure is a `RequestError`, never a `ParseError` |
| Http.ReceiveErrorKinds | core/src/error.rs:11-26 | the reply handling only yields request, API or parse errors |
| Http.ReceiveErrorStatusSkipsParse | gemini/src/lib.rs:282-290 | on an error status the body is not decoded: the result is the same for every decoder |
| Gemini.ToError | gemini/src/lib.rs:56-69 | a builder error becomes a "Gemini" provider error |
| Gemini.DisplayErrorTexts | gemini/src/lib.rs:73-80 | the two builder errors print different texts, and each differs from the message its conversion to `Error` carries |
| Gemini.ToErrorTexts | gemini/src/lib.rs:56-69 | different builder errors convert to different provider errors, printed with the messages the conversion gives |
| Gemini.Builder.constructor | gemini/src/lib.rs:92-94 | a new builder has neither client nor key |
| Gemini.Builder.WithClient | gemini/src/lib.rs:98-101 | sets the client and leaves the key alone |
| Gemini.Builder.WithApiKey | gemini/src/lib.rs:105-108 | sets the key and leaves the client alone |
| Gemini.Builder.ApiKeyFromEnv | gemini/src/lib.rs:111-116 | takes the key from `GEMINI_API_KEY` when set, otherwise returns the variable error and changes nothing |
| Gemini.Builder.Build | gemini/src/lib.rs:125-130 | a missing client is reported before a missing key; with both, the client holds exactly them |
| Gemini.PayloadRoundTrip | gemini/src/lib.rs:272 | the prompt can be read back out of the request payload |
| Gemini.Call | gemini/src/lib.rs:254-280 | a POST to the given URL carrying the prompt, with exactly two headers: `x-goog-api-key` and the JSON content type that `.json` adds |
| Gemini.RequestUrlInjective | gemini/src/lib.rs:255-261 | different models get different request URLs |
| Gemini.StreamUrlDiffers | gemini/src/lib.rs:315-321 | no streaming URL equals a blocking-request URL |
| Gemini.DecodeEvent | gemini/src/lib.rs:347-369 | a stream error becomes a "Gemini" provider error; an event decodes or becomes a parse error |
| Gemini.DecodeEvents | gemini/src/lib.rs:347-369 | every event yields exactly one element, in order |
| Gemini.DecodeEventsAppend | gemini/src/lib.rs:347-369 | decoding distributes over concatenated streams, so it is lazy and per event |
| Gemini.StreamingRequest | gemini/src/lib.rs:310-372 | a send failure is a `RequestError`; any reply that was sent gives its decoded events, whatever the status |
| Gemini.StreamingIgnoresStatus | gemini/src/lib.rs:334-346 | whatever the status, a sent call yields the decoded events, never an `ApiError` |
| Gemini.SendRequest | gemini/src/lib.rs:377-392 | a model that is not a `GeminiModel` is refused with its wire id; otherwise the converted result of the request |
| Gemini.ToAiResponses | gemini/src/lib.rs:411-419 | each stream element is converted, errors pass through, and the length is kept |
| Gemini.SendStreaming | gemini/src/lib.rs:395-420 | a foreign model gives a one-element stream holding `InvalidModelError`; a failed send gives a one-element stream holding its error; otherwise each decoded element, converted |
| Gemini.ForeignModelMakesNoCall | gemini/src/lib.rs:382-409 | for a foreign model, neither call depends on the transport |
| Gemini.SendStreamingPerEvent | gemini/src/lib.rs:395-420 | a sent stream yields one element per event, in place: a stream error becomes a "Gemini" provider error, a decodable event its converted `AiResponse`, and any other event a `ParseError` |
| GeminiResponses.PartTexts | gemini/src/response.rs:78-90 | the texts of a candidate's parts, one per part |
| GeminiResponses.ToAiResponse | gemini/src/response.rs:65-76 | the response text is the extracted text, and the three usage counts are the metadata's |
| GeminiResponses.AllTextsAppend | gemini/src/response.rs:78-90 | part texts of concatenated candidates concatenate |
| GeminiResponses.ExtractTextAppend | gemini/src/response.rs:78-90 | the text of two candidate lists is their texts joined with no separator |
| GeminiResponses.ExtractTextSingle | gemini/src/response.rs:78-90 | one candidate's text is its parts' texts concatenated |
| GeminiResponses.ExtractTextLength | gemini/src/response.rs:78-90 | the text is as long as all parts' texts together |
| GeminiResponses.ExtractTextNoParts | gemini/src/response.rs:141-152 | candidates with no parts give empty text |
| GeminiResponses.ExtractTextExample | gemini/src/response.rs:97-132 | two candidates give "First part. Second part.Another candidate." |
| GeminiResponses.ExtractTextEmptyExamples | gemini/src/response.rs:134-152 | no candidates, or a candidate with no parts, give "" |
| GeminiResponses.ConversionIgnoresDetails | gemini/src/response.rs:65-76 | only candidates and the three counts affect the converted response |
| OpenaiResponses.DefaultOutput | openai/src/response.rs:39-49 | the default output is a content output with no content |
| OpenaiResponses.OutputTexts | openai/src/response.rs:134-146 | a summary output gives no text; a content output gives one text per content item |
| OpenaiResponses.ToAiResponse | openai/src/response.rs:121-132 | the text is the extracted text, and the usage counts are the response's |
| OpenaiResponses.AllTextsAppend | openai/src/response.rs:134-146 | output texts of concatenated outputs concatenate |
| OpenaiResponses.SummaryContributesNothing | openai/src/response.rs:142 | removing a summary output anywhere leaves the text unchanged |
| OpenaiResponses.ExtractTextAppend | openai/src/response.rs:145 | the texts of two output lists are joined by a single space |
| OpenaiResponses.ExtractTextLength | openai/src/response.rs:134-146 | the text's length is all content texts plus one separator between each pair |
| OpenaiResponses.ExtractTextExample | openai/src/response.rs:153-176 | the test's response extracts to "Hello World" |
| OpenaiResponses.ExtractTextDefaults | openai/src/response.rs:178-182 | the default response and the default output give no text |
| OpenaiResponses.ConversionIgnoresDetails | openai/src/response.rs:121-132 | only outputs and the three counts affect the converted response |
| Openai.ToError | openai/src/lib.rs:75-88 | a builder error becomes an "OpenAI" provider error |
| Openai.DisplayErrorTexts | openai/src/lib.rs:66-73 | the two builder errors print different texts, and each differs from the message its conversion to `Error` carries |
| Openai.ToErrorTexts | openai/src/lib.rs:75-88 | different builder errors convert to different provider errors, printed with the messages the conversion gives |
| Openai.Builder.constructor | openai/src/lib.rs:103 | a new builder has neither client nor key |
| Openai.Builder.WithClient | openai/src/lib.rs:116 | sets the client and leaves the key alone |
| Openai.Builder.WithApiKey | openai/src/lib.rs:130 | sets the key and leaves the client alone |
| Openai.Builder.ApiKeyFromEnv | openai/src/lib.rs:136-141 | takes the key from `OPENAI_API_KEY` when set, otherwise returns the variable error and changes nothing |
| Openai.Builder.Build | openai/src/lib.rs:148-152 | a missing client is reported before a missing key; with both, the client holds exactly them |
| Openai.BodyRoundTrip | openai/src/lib.rs:287 | the body carries the prompt as `input` and a `model` string that parses back to the model |
| Openai.Call | openai/src/lib.rs:274-295 | a POST to the responses endpoint with JSON content type, bearer authorization and the body |
| Openai.Narrow | openai/src/lib.rs:318-321 | a model accepted by narrowing has the same wire id as the model value |
| Openai.SendRequest | openai/src/lib.rs:312-325 | a value whose wire id is no OpenAI id is refused with that id; otherwise the converted result of the request |
| Openai.NarrowOwnModel | openai/src/lib.rs:318-321 | an OpenAI model narrows to itself |
| Openai.NarrowAcceptsAnyTypeWithOpenaiId | openai/src/lib.rs:318-321 | any model value with an OpenAI wire id is accepted, for example the OpenRouter model "o3" |
| Openai.GeminiModelRefused | openai/src/lib.rs:318-321 | every Gemini model is refused with its wire id |
| Openai.RefusedModelMakesNoCall | openai/src/lib.rs:318-321 | for a refused model, the result does not depend on the transport |
| Openrouter.ToError | openrouter/src/lib.rs:65-82 | an OpenRouter error becomes an "OpenRouter" provider error; a header error carries its message |
| Openrouter.DisplayErrorTexts | openrouter/src/lib.rs:55-63 | different errors print different texts; the printed text equals the converted error's message exactly for a header error |
| Openrouter.ToErrorInjective | openrouter/src/lib.rs:65-82 | two OpenRouter errors convert alike exactly when they are equal |
| Openrouter.Builder.constructor | openrouter/src/lib.rs:101-103 | a new builder has no client, key, referer or title |
| Openrouter.Builder.WithClient | openrouter/src/lib.rs:115-118 | sets the client, nothing else |
| Openrouter.Builder.WithApiKey | openrouter/src/lib.rs:130-133 | sets the key, nothing else |
| Openrouter.Builder.ApiKeyFromEnv | openrouter/src/lib.rs:136-141 | takes the key from `OPENROUTER_API_KEY` when set, otherwise returns the variable error and changes nothing |
| Openrouter.Builder.WithHttpReferer | openrouter/src/lib.rs:153-156 | sets the referer, nothing else |
| Openrouter.Builder.WithXTitle | openrouter/src/lib.rs:168-171 | sets the title, nothing else |
| Openrouter.Builder.Build | openrouter/src/lib.rs:178-188 | a missing client is reported before a missing key; referer and title are optional and carried over |
| Openrouter.EndpointsDiffer | openrouter/src/lib.rs:202 | chat completions and the model listing are different URLs |
| Openrouter.Headers | openrouter/src/lib.rs:330-345 | JSON content type and bearer authorization always; `HTTP-Referer` and `X-Title` exactly when configured; nothing else |
| Openrouter.ChatBodyRoundTrip | openrouter/src/lib.rs:347-355 | the body names the model, carries the prompt as the single user message, and has `stream: true` only when streaming |
| Openrouter.Call | openrouter/src/lib.rs:325-369 | a POST to chat completions with the client's headers and the body |
| Openrouter.RequestErrorStatus | openrouter/src/lib.rs:371-379 | an error status gives `ApiError` with the body text |
| Openrouter.DecodeEvent | openrouter/src/lib.rs:456-484 | an event is dropped exactly when its data contains `[DONE]`; a stream error is an "OpenRouter" provider error; other events decode or become parse errors |
| Openrouter.DecodeEvents | openrouter/src/lib.rs:456-484 | decoding never lengthens the stream |
| Openrouter.DecodeEventsAppend | openrouter/src/lib.rs:456-484 | decoding distributes over concatenated streams |
| Openrouter.DecodeEventsLength | openrouter/src/lib.rs:456-484 | exactly the `[DONE]` events are dropped |
| Openrouter.DoneDoesNotEndStream | openrouter/src/lib.rs:479-481 | events after a `[DONE]` event are still decoded |
| Openrouter.DoneAnywhereDropped | openrouter/src/lib.rs:479-481 | an event containing `[DONE]` anywhere in its data yields nothing |
| Openrouter.NoDoneKeepsEveryEvent | openrouter/src/lib.rs:456-484 | with no `[DONE]`, every event yields its own element in place |
| Openrouter.StreamingRequest | openrouter/src/lib.rs:399-487 | a send failure is a `RequestError`, an error status an `ApiError` with the body, otherwise the decoded events |
| Openrouter.ModelsCall | openrouter/src/lib.rs:503-505 | the listing is a GET with no headers and no body |
| Openrouter.Models | openrouter/src/lib.rs:503-520 | the listing's errors are those of `.json()`, and a decoded list becomes its `ModelId`s |
| Openrouter.ModelsKeepsListing | openrouter/tests/openrouter_client.rs:167-228 | a 200 reply with a decodable list gives one `ModelId` per listed model, with its id and name |
| Openrouter.SendRequest | openrouter/src/lib.rs:525-541 | a model that is not an `OpenrouterModel` is refused with its wire id; otherwise the converted result of the request |
| Openrouter.SendStreaming | openrouter/src/lib.rs:544-569 | a foreign model gives a one-element `InvalidModelError` stream; otherwise each element is converted |
| Openrouter.StreamingUnauthorized | openrouter/tests/openrouter_client.rs:81-122 | a streamed 401 reply gives exactly one `ApiError(401, body)` |
| Openrouter.ForeignModelMakesNoCall | openrouter/src/lib.rs:530-558 | for a foreign model, neither call depends on the transport |
| OpenrouterResponses.ChoiceTexts | openrouter/src/response.rs:47-55 | one text per choice, its message content |
| OpenrouterResponses.ToAiResponse | openrouter/src/response.rs:58-71 | the text is the extracted text, and the usage counts are the response's |
| OpenrouterResponses.ExtractTextAppend | openrouter/src/response.rs:47-55 | the texts of two non-empty choice lists are joined by a single space |
| OpenrouterResponses.ExtractTextSingle | openrouter/src/response.rs:47-55 | one choice's text is its message content |
| OpenrouterResponses.ExtractTextExample | openrouter/src/response.rs:156-179 | two choices give "First Choice Second Choice" |
| OpenrouterResponses.ExtractTextEmpty | openrouter/src/response.rs:181-196 | no choices give "" |
| OpenrouterResponses.ModelIds | openrouter/src/response.rs:85-96 | one `ModelId` per listed model, with its id and name, in order |
| OpenrouterResponses.ConvertModelsList | openrouter/src/response.rs:85-96 | the conversion loop builds exactly that list |
| OpenrouterResponses.ModelIdsExample | openrouter/src/response.rs:85-96 | a one-item listing becomes the matching `ModelId` |
| OpenrouterResponses.DeltaTexts | openrouter/src/response.rs:125-133 | one text per stream choice, with a missing delta as "" |
| OpenrouterResponses.MissingDeltaKeepsSlot | openrouter/src/response.rs:125-133 | a choice without content still takes its slot: two spaces appear in the text |
| OpenrouterResponses.StreamTextLength | openrouter/src/response.rs:125-133 | the stream text's length is all delta texts plus one space between each pair |
| GeminiSettings.TryFrom | gemini/src/settings.rs:40-52 | an unknown string is refused with `InvalidModelError` of the string |
| GeminiSettings.Display | gemini/src/settings.rs:34-38 | what `Display` prints parses back to the same model |
| GeminiSettings.Variants | gemini/src/settings.rs:93-95 | five `ModelId`s, one per model, in declaration order |
| GeminiSettings.TryFromAsRef | gemini/src/settings.rs:177-199 | each model's id parses back to the model |
| GeminiSettings.TryFromSound | gemini/src/settings.rs:40-52 | what parses is the id of the model returned |
| GeminiSettings.ModelIdMatchesAsRef | gemini/src/settings.rs:54-91 | the `ModelId`'s id is the wire id |
| GeminiSettings.TryFromNonexistent | gemini/src/settings.rs:202-205 | "nonexistent-model" is refused with "Invalid model name: nonexistent-model" |
| GeminiSettings.New | gemini/src/settings.rs:99-120 | the client keeps the given transport, base URL and key |
| GeminiSettings.RequestUrl | gemini/src/settings.rs:128 | the URL is the base, "/", the model, then ":generateContent" |
| GeminiSettings.ChunkData | gemini/src/settings.rs:158-162 | the data of every chunk that was read, position by position |
| GeminiSettings.Collect | gemini/src/settings.rs:158-162 | body reading succeeds exactly when every chunk reads, giving their concatenation; otherwise the first failed read's `RequestError` |
| GeminiSettings.CollectChunks | gemini/src/settings.rs:158-162 | the chunk loop computes exactly that |
| GeminiSettings.Call | gemini/src/settings.rs:128-149 | a POST to the model's URL with the prompt payload and exactly two headers: the key and the JSON content type |
| GeminiSettings.SendRequest | gemini/src/settings.rs:123-170 | the method's steps compute the specified result of the request |
| GeminiSettings.NeverInvalidModel | gemini/src/settings.rs:123-170 | this client never reports `InvalidModelError`: it sends any model string it is given |
| GeminiSettings.ErrorStatusSkipsBody | gemini/src/settings.rs:151-156 | an error status gives `ApiError` with the body, and no chunk is read |
| GeminiSettings.DecodesConcatenatedChunks | gemini/src/settings.rs:158-168 | on success the decoded concatenation of all chunks becomes the response text |
| GeminiSettings.FailedReadAborts | gemini/src/settings.rs:158-162 | the first failed chunk read ends the call with its `RequestError` |
| Provider.ConcreteSend | core/src/lib.rs:121-148 | whichever provider answers, an invalid-model error names the wire id of the model given |
| Provider.ForwardingTransparent | core/src/lib.rs:150-232 | any nesting of `&`, `&mut`, `Box` and `Arc` around a provider behaves exactly as the provider |
| Provider.ForeignModelRefused | core/src/lib.rs:121-148 | through any handle, Gemini and OpenRouter refuse a foreign model type with `InvalidModelError` of its wire id, as one result or a one-element stream |

## Left out

- The HTTP transport, TLS, timeouts and the async runtime are parameters.
  `BoxFuture` and `BoxStream` become values, and a stream is a finite
  sequence of its elements.
- SSE framing (the eventsource layer) is part of the transport parameter:
  the model receives the events already framed.
- JSON decoding with serde is a parameter. The response structs model only
  the fields the conversion reads, plus a few carried along.
- The floating-point fields of the OpenAI response (openai/src/response.rs:109
  and 114) are left out. Nothing reads them.
- Bodies and event data are strings; bytes and UTF-8 decoding are not
  modelled.
- `SecretString` and `Arc` sharing are not modelled: the key is a plain
  string and a client is a value.
- Header values are built with `.expect`, which panics on a value that is not
  a valid header, and URLs are parsed and joined with `.expect`. These panics
  are not modelled: every header value is accepted. As a result,
  `OpenrouterError::HeaderParseError` is converted but never produced.
- Tracing instrumentation (the `tracing` feature) has no effect on results
  and is left out.
- The `AiModel` impl the macro generates (macros/src/lib.rs:144-151) defines
  `model_id` but not `as_any`, which the trait (core/src/lib.rs:61-64)
  requires. The model assumes the derived enums can be downcast like
  OpenRouter's model, which defines `as_any` by hand.
- `as_any` is not modelled as a method. `AnyModel` turns the runtime type
  test into a match on a closed sum, and `Foreign` stands for any type
  outside the three providers.
- Openai.Narrow: `model.as_ref().parse()` (openai/src/lib.rs:318) needs a
  `FromStr` implementation for `OpenaiModel`. No such implementation is part
  of this model: neither the derive (macros/src/lib.rs:144-221) nor the enum
  (openai/src/lib.rs:21) provides one. The model assumes it is the generated
  `try_from` lookup of the wire id. What narrowing accepts, including the
  OpenRouter model "o3", rests on that assumption.
- Provider.SendStreaming: requires a provider other than OpenAI. The OpenAI
  client in this revision has no `send_streaming`.
- Openrouter.SendStreaming: converting a stream chunk to `AiResponse` is not
  in openrouter/src/response.rs, so the conversion is a parameter.
- GeminiSettings: gemini/src/settings.rs is an older revision that is not
  declared as a module. It has its own `AiResponse`, which carries text only,
  and its base URL is supplied by the caller.
- `new_with_base_url` and the other test utilities are left out.
- The macro's token generation (syn/quote, spans and compile-error
  rendering) is left out. The model keeps what the generated code does and
  which inputs the macro refuses, with the error each refusal reports.
- The `latchlm` re-export crate and `xtask` contain no logic of the
  provider layer.

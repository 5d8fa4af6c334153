/**
 * The Gemini provider (gemini/src/lib.rs): its error type, the builder, the
 * shape of blocking and streaming calls, the per-event decoding of the
 * event stream, and the `AiProvider` entry points that narrow a model.
 */
module Gemini {
  import opened Wrappers
  import opened Core
  import opened CoreError
  import opened Json
  import opened Http
  import Env
  import GeminiModels
  import GeminiResponses
  import AnyModel

  datatype GeminiError = MissingApiKeyError | MissingClientError

  /** `Display for GeminiError`. */
  function DisplayError(e: GeminiError): string {
    match e
    case MissingApiKeyError => "API key is required"
    case MissingClientError => "HTTP client is required"
  }

  /** `From<GeminiError> for Error`: a provider error tagged "Gemini". */
  function ToError(e: GeminiError): (r: Error)
    ensures r.ProviderError? && r.provider == "Gemini"
  {
    match e
    case MissingApiKeyError => ProviderError("Gemini", "Missing API key")
    case MissingClientError => ProviderError("Gemini", "Missing reqwest::Client")
  }

  /**
   * The two builder errors print different texts, and neither is the message
   * the conversion to `Error` uses: the two wordings differ.
   */
  lemma DisplayErrorTexts(e1: GeminiError, e2: GeminiError)
    ensures DisplayError(e1) == DisplayError(e2) ==> e1 == e2
    ensures DisplayError(e1) != ToError(e1).error
  {
    assert DisplayError(e1)[0] != ToError(e1).error[0];
    if e1 != e2 {
      assert DisplayError(e1)[0] != DisplayError(e2)[0];
    }
  }

  /** The two builder errors stay distinguishable, and print as the provider-settings format says. */
  lemma ToErrorTexts(e1: GeminiError, e2: GeminiError)
    ensures ToError(e1) == ToError(e2) ==> e1 == e2
    ensures CoreError.Display(ToError(MissingApiKeyError)) == "Provider settings error: " + "Gemini" + " : " + "Missing API key"
    ensures CoreError.Display(ToError(MissingClientError)) == "Provider settings error: " + "Gemini" + " : " + "Missing reqwest::Client"
  {
    CoreError.ProviderErrorDisplay("Gemini", "Missing API key");
    CoreError.ProviderErrorDisplay("Gemini", "Missing reqwest::Client");
  }

  const BaseUrl := "https://generativelanguage.googleapis.com"
  const ApiKeyHeader := "x-goog-api-key"
  const ApiKeyVar := "GEMINI_API_KEY"

  /** A configured client; the base URL is always `BaseUrl`. */
  datatype Gemini = Gemini(client: HttpClient, apiKey: string)

  /** `GeminiBuilder`: the setters overwrite a field, `build` checks the client, then the key. */
  class Builder {
    var client: Option<HttpClient>
    var apiKey: Option<string>

    /** `GeminiBuilder::new`, the derived default. */
    constructor ()
      ensures client == None && apiKey == None
    {
      client := None;
      apiKey := None;
    }

    method WithClient(c: HttpClient)
      modifies this
      ensures client == Some(c) && apiKey == old(apiKey)
    {
      client := Some(c);
    }

    method WithApiKey(key: string)
      modifies this
      ensures apiKey == Some(key) && client == old(client)
    {
      apiKey := Some(key);
    }

    /** `api_key_from_env`: reads `GEMINI_API_KEY`; on failure the builder is not changed. */
    method ApiKeyFromEnv(env: Env.Environment) returns (r: Result<(), Env.VarError>)
      modifies this
      ensures client == old(client)
      ensures Env.Var(env, ApiKeyVar).Success? ==> r.Success? && apiKey == Some(Env.Var(env, ApiKeyVar).value)
      ensures Env.Var(env, ApiKeyVar).Failure? ==> r == Failure(Env.Var(env, ApiKeyVar).error) && apiKey == old(apiKey)
    {
      match Env.Var(env, ApiKeyVar)
      case Failure(e) =>
        return Failure(e);
      case Success(key) =>
        apiKey := Some(key);
        return Success(());
    }

    /** `build`: a missing client is reported before a missing key. */
    method Build() returns (r: Result<Gemini, Error>)
      ensures client.None? ==> r == Failure(ToError(MissingClientError))
      ensures client.Some? && apiKey.None? ==> r == Failure(ToError(MissingApiKeyError))
      ensures client.Some? && apiKey.Some? ==> r == Success(Gemini(client.value, apiKey.value))
    {
      if client.None? {
        return Failure(ToError(MissingClientError));
      }
      if apiKey.None? {
        return Failure(ToError(MissingApiKeyError));
      }
      return Success(Gemini(client.value, apiKey.value));
    }
  }

  /** The path of a blocking call, joined onto the base URL (which has no path of its own). */
  function RequestUrl(m: GeminiModels.GeminiModel): string {
    BaseUrl + "/v1beta/models/" + GeminiModels.AsRef(m) + ":generateContent"
  }

  /** The path of a streaming call. */
  function StreamUrl(m: GeminiModels.GeminiModel): string {
    BaseUrl + "/v1beta/models/" + GeminiModels.AsRef(m) + ":streamGenerateContent?alt=sse"
  }

  /** `{"contents": [{"parts": {"text": text}}]}` */
  function Payload(text: string): Json {
    Object(map["contents" := Array([Object(map["parts" := Object(map["text" := Str(text)])])])])
  }

  /** Where the prompt sits in a payload. */
  function PayloadText(j: Json): Option<string> {
    match Get(j, "contents")
    case Some(Array(items)) =>
      if |items| == 1 then
        match Get(items[0], "parts")
        case Some(parts) => GetString(parts, "text")
        case None => None
      else None
    case _ => None
  }

  /** The prompt can be read back out of the payload unchanged. */
  lemma PayloadRoundTrip(text: string)
    ensures PayloadText(Payload(text)) == Some(text)
  {
  }

  /**
   * The headers of every call: the key, and the JSON content type that
   * `.json(&payload)` adds.
   */
  function Headers(apiKey: string): map<string, string> {
    map[ApiKeyHeader := apiKey, "Content-Type" := "application/json"]
  }

  /** The blocking and the streaming call share the payload and the headers. */
  function Call(g: Gemini, url: string, req: AiRequest): (c: HttpCall)
    ensures c.verb == POST && c.url == url && c.client == g.client
    ensures c.headers.Keys == {ApiKeyHeader, "Content-Type"}
    ensures c.headers[ApiKeyHeader] == g.apiKey && c.headers["Content-Type"] == "application/json"
    ensures c.body.Some? && PayloadText(c.body.value) == Some(req.text)
  {
    HttpCall(g.client, POST, url, Headers(g.apiKey), Some(Payload(req.text)))
  }

  /** Different models are sent to different URLs. */
  lemma RequestUrlInjective(m1: GeminiModels.GeminiModel, m2: GeminiModels.GeminiModel)
    requires RequestUrl(m1) == RequestUrl(m2)
    ensures m1 == m2
  {
    var p := BaseUrl + "/v1beta/models/";
    var s := ":generateContent";
    var a1 := GeminiModels.AsRef(m1);
    var a2 := GeminiModels.AsRef(m2);
    assert RequestUrl(m1) == p + a1 + s;
    assert RequestUrl(m2) == p + a2 + s;
    assert a1 == RequestUrl(m1)[|p|..|RequestUrl(m1)| - |s|];
    assert a2 == RequestUrl(m2)[|p|..|RequestUrl(m2)| - |s|];
    GeminiModels.TryFromAsRef(m1);
    GeminiModels.TryFromAsRef(m2);
  }

  /** A streaming URL is never the URL of a blocking call: the two end differently. */
  lemma StreamUrlDiffers(m1: GeminiModels.GeminiModel, m2: GeminiModels.GeminiModel)
    ensures StreamUrl(m1) != RequestUrl(m2)
  {
    assert StreamUrl(m1)[|StreamUrl(m1)| - 1] == 'e';
    assert RequestUrl(m2)[|RequestUrl(m2)| - 1] == 't';
  }

  /** `Gemini::request`. */
  function Request(g: Gemini, m: GeminiModels.GeminiModel, req: AiRequest,
                   transport: HttpCall -> HttpReply,
                   parse: string -> Result<GeminiResponses.GeminiResponse, string>): Result<GeminiResponses.GeminiResponse, Error>
  {
    Receive(transport(Call(g, RequestUrl(m), req)), parse)
  }

  /** The `filter_map` closure: every event gives one element, a stream error a "Gemini" provider error. */
  function DecodeEvent(item: SseItem, parse: string -> Result<GeminiResponses.GeminiResponse, string>): (r: Result<GeminiResponses.GeminiResponse, Error>)
    ensures item.EventError? ==> r == Failure(ProviderError("Gemini", item.message))
    ensures item.Event? ==> (r.Success? <==> parse(item.data).Success?)
    ensures item.Event? && r.Success? ==> r.value == parse(item.data).value
    ensures item.Event? && r.Failure? ==> r == Failure(ParseError(parse(item.data).error))
  {
    match item
    case EventError(msg) => Failure(ProviderError("Gemini", msg))
    case Event(data) =>
      match parse(data)
      case Success(v) => Success(v)
      case Failure(d) => Failure(ParseError(d))
  }

  /** The decoded stream: nothing is dropped, nothing reordered, and an error does not end it. */
  function DecodeEvents(items: seq<SseItem>, parse: string -> Result<GeminiResponses.GeminiResponse, string>): (rs: seq<Result<GeminiResponses.GeminiResponse, Error>>)
    ensures |rs| == |items|
    ensures forall i :: 0 <= i < |items| ==> rs[i] == DecodeEvent(items[i], parse)
  {
    if items == [] then [] else [DecodeEvent(items[0], parse)] + DecodeEvents(items[1..], parse)
  }

  /** Decoding works event by event: a stream split in two decodes as its halves. */
  lemma DecodeEventsAppend(a: seq<SseItem>, b: seq<SseItem>, parse: string -> Result<GeminiResponses.GeminiResponse, string>)
    ensures DecodeEvents(a + b, parse) == DecodeEvents(a, parse) + DecodeEvents(b, parse)
  {
  }

  /** `Gemini::streaming_request`: once the call is sent, the events are decoded whatever the status. */
  function StreamingRequest(g: Gemini, m: GeminiModels.GeminiModel, req: AiRequest,
                            transport: HttpCall -> StreamReply,
                            parse: string -> Result<GeminiResponses.GeminiResponse, string>): (r: Result<seq<Result<GeminiResponses.GeminiResponse, Error>>, Error>)
    ensures transport(Call(g, StreamUrl(m), req)).StreamSendFailed? ==>
      r == Failure(RequestError(transport(Call(g, StreamUrl(m), req)).detail))
    ensures transport(Call(g, StreamUrl(m), req)).StreamReply? ==>
      r == Success(DecodeEvents(transport(Call(g, StreamUrl(m), req)).events, parse))
  {
    match transport(Call(g, StreamUrl(m), req))
    case StreamSendFailed(d) => Failure(RequestError(d))
    case StreamReply(_, _, events) => Success(DecodeEvents(events, parse))
  }

  /**
   * Unlike a blocking call, a streaming call does not look at the status: a
   * reply with status 401 is decoded as events and never becomes an `ApiError`.
   */
  lemma StreamingIgnoresStatus(g: Gemini, m: GeminiModels.GeminiModel, req: AiRequest,
                               transport: HttpCall -> StreamReply,
                               parse: string -> Result<GeminiResponses.GeminiResponse, string>)
    requires transport(Call(g, StreamUrl(m), req)).StreamReply?
    ensures StreamingRequest(g, m, req, transport, parse) == Success(DecodeEvents(transport(Call(g, StreamUrl(m), req)).events, parse))
    ensures forall i :: 0 <= i < |StreamingRequest(g, m, req, transport, parse).value| ==>
      !(StreamingRequest(g, m, req, transport, parse).value[i].Failure? &&
        StreamingRequest(g, m, req, transport, parse).value[i].error.ApiError?)
  {
  }

  /** `AiProvider::send_request`: a model that is not a `GeminiModel` is refused before any call. */
  function SendRequest(g: Gemini, model: AnyModel.DynModel, req: AiRequest,
                       transport: HttpCall -> HttpReply,
                       parse: string -> Result<GeminiResponses.GeminiResponse, string>): (r: Result<AiResponse, Error>)
    ensures AnyModel.DowncastGemini(model).None? ==> r == Failure(InvalidModelError(AnyModel.AsRef(model)))
    ensures model.OfGemini? ==>
      match Request(g, model.gemini, req, transport, parse)
      case Success(resp) => r == Success(GeminiResponses.ToAiResponse(resp))
      case Failure(e) => r == Failure(e)
  {
    match AnyModel.DowncastGemini(model)
    case None => Failure(InvalidModelError(AnyModel.AsRef(model)))
    case Some(m) =>
      match Request(g, m, req, transport, parse)
      case Success(resp) => Success(GeminiResponses.ToAiResponse(resp))
      case Failure(e) => Failure(e)
  }

  /** Each decoded event converted to an `AiResponse`, errors passed through. */
  function ToAiResponses(rs: seq<Result<GeminiResponses.GeminiResponse, Error>>): (out: seq<Result<AiResponse, Error>>)
    ensures |out| == |rs|
    ensures forall i :: 0 <= i < |rs| ==>
      (rs[i].Success? ==> out[i] == Success(GeminiResponses.ToAiResponse(rs[i].value))) &&
      (rs[i].Failure? ==> out[i] == Failure(rs[i].error))
  {
    seq(|rs|, i requires 0 <= i < |rs| =>
      match rs[i]
      case Success(resp) => Success(GeminiResponses.ToAiResponse(resp))
      case Failure(e) => Failure(e))
  }

  /**
   * `AiProvider::send_streaming`: a foreign model, or a call that cannot be
   * sent, gives a one-element stream holding the error; otherwise the decoded
   * events, each converted.
   */
  function SendStreaming(g: Gemini, model: AnyModel.DynModel, req: AiRequest,
                         transport: HttpCall -> StreamReply,
                         parse: string -> Result<GeminiResponses.GeminiResponse, string>): (out: seq<Result<AiResponse, Error>>)
    ensures AnyModel.DowncastGemini(model).None? ==> out == [Failure(InvalidModelError(AnyModel.AsRef(model)))]
    ensures model.OfGemini? ==>
      match StreamingRequest(g, model.gemini, req, transport, parse)
      case Failure(e) => out == [Failure(e)]
      case Success(rs) => out == ToAiResponses(rs)
  {
    match AnyModel.DowncastGemini(model)
    case None => [Failure(InvalidModelError(AnyModel.AsRef(model)))]
    case Some(m) =>
      match StreamingRequest(g, m, req, transport, parse)
      case Success(rs) => ToAiResponses(rs)
      case Failure(e) => [Failure(e)]
  }

  /** A foreign model's result does not depend on the transport: no call is made for it. */
  lemma ForeignModelMakesNoCall(g: Gemini, model: AnyModel.DynModel, req: AiRequest,
                                t1: HttpCall -> HttpReply, t2: HttpCall -> HttpReply,
                                s1: HttpCall -> StreamReply, s2: HttpCall -> StreamReply,
                                parse: string -> Result<GeminiResponses.GeminiResponse, string>)
    requires !model.OfGemini?
    ensures SendRequest(g, model, req, t1, parse) == SendRequest(g, model, req, t2, parse)
    ensures SendStreaming(g, model, req, s1, parse) == SendStreaming(g, model, req, s2, parse)
  {
  }

  /**
   * A streamed call keeps one element per event, in order: a stream error
   * becomes a "Gemini" provider error, and a data event its decoded,
   * converted response or a parse error.
   */
  lemma SendStreamingPerEvent(g: Gemini, m: GeminiModels.GeminiModel, req: AiRequest,
                              transport: HttpCall -> StreamReply,
                              parse: string -> Result<GeminiResponses.GeminiResponse, string>)
    requires transport(Call(g, StreamUrl(m), req)).StreamReply?
    ensures var events := transport(Call(g, StreamUrl(m), req)).events;
      var out := SendStreaming(g, AnyModel.OfGemini(m), req, transport, parse);
      && |out| == |events|
      && (forall i :: 0 <= i < |events| && events[i].EventError? ==>
           out[i] == Failure(ProviderError("Gemini", events[i].message)))
      && (forall i :: 0 <= i < |events| && events[i].Event? && parse(events[i].data).Success? ==>
           out[i] == Success(GeminiResponses.ToAiResponse(parse(events[i].data).value)))
      && (forall i :: 0 <= i < |events| && events[i].Event? && parse(events[i].data).Failure? ==>
           out[i] == Failure(ParseError(parse(events[i].data).error)))
  {
  }
}

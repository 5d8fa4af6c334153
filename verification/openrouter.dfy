/**
 * The OpenRouter provider (openrouter/src/lib.rs): its error type, the
 * builder with the two optional attribution headers, the shape of chat
 * calls, the filtering of the event stream, the model listing and the
 * `AiProvider` entry points.
 */
module Openrouter {
  import opened Wrappers
  import opened Core
  import opened CoreError
  import opened Json
  import opened Http
  import Env
  import Strings
  import OpenrouterModels
  import OpenrouterResponses
  import AnyModel

  datatype OpenrouterError = MissingClientError | MissingApiKeyError | HeaderParseError(err: string)

  /** `Display for OpenrouterError`. */
  function DisplayError(e: OpenrouterError): string {
    match e
    case MissingClientError => "HTTP client is required"
    case MissingApiKeyError => "API key is required"
    case HeaderParseError(err) => "Failed to parse header: " + err
  }

  /** `From<OpenrouterError> for Error`: a provider error tagged "OpenRouter". */
  function ToError(e: OpenrouterError): (r: Error)
    ensures r.ProviderError? && r.provider == "OpenRouter"
    ensures e.HeaderParseError? ==> r.error == "Failed to parse header: " + e.err
  {
    match e
    case MissingClientError => ProviderError("OpenRouter", "Missing reqwest::Client")
    case MissingApiKeyError => ProviderError("OpenRouter", "Missing API key")
    case HeaderParseError(err) => ProviderError("OpenRouter", "Failed to parse header: " + err)
  }

  /**
   * Different errors print different texts. Only a header error prints the
   * same text as the message its conversion to `Error` carries; the two
   * builder errors are worded differently in the two places.
   */
  lemma DisplayErrorTexts(e1: OpenrouterError, e2: OpenrouterError)
    ensures DisplayError(e1) == DisplayError(e2) ==> e1 == e2
    ensures DisplayError(e1) == ToError(e1).error <==> e1.HeaderParseError?
  {
    var prefix := "Failed to parse header: ";
    if !e1.HeaderParseError? {
      assert DisplayError(e1)[0] != ToError(e1).error[0];
    }
    if e1.HeaderParseError? && e2.HeaderParseError? {
      assert e1.err == DisplayError(e1)[|prefix|..];
      assert e2.err == DisplayError(e2)[|prefix|..];
    } else if e1 != e2 {
      assert DisplayError(e1)[0] != DisplayError(e2)[0];
    }
  }

  /** Different builder errors give different provider errors. */
  lemma ToErrorInjective(e1: OpenrouterError, e2: OpenrouterError)
    ensures ToError(e1) == ToError(e2) <==> e1 == e2
  {
    var prefix := "Failed to parse header: ";
    if e1.HeaderParseError? && e2.HeaderParseError? {
      assert e1.err == ToError(e1).error[|prefix|..];
      assert e2.err == ToError(e2).error[|prefix|..];
    } else if e1.HeaderParseError? || e2.HeaderParseError? {
      assert ToError(e1).error[0] != ToError(e2).error[0];
    } else if e1 != e2 {
      assert ToError(e1).error[8] != ToError(e2).error[8];
    }
  }

  const BaseUrl := "https://openrouter.ai/api/v1/"
  const ApiKeyVar := "OPENROUTER_API_KEY"

  /** A configured client; every call goes below `BaseUrl`. */
  datatype Openrouter = Openrouter(client: HttpClient, apiKey: string, httpReferer: Option<string>, xTitle: Option<string>)

  /** `OpenrouterBuilder`. */
  class Builder {
    var client: Option<HttpClient>
    var apiKey: Option<string>
    var httpReferer: Option<string>
    var xTitle: Option<string>

    /** `OpenrouterBuilder::new`, the derived default. */
    constructor ()
      ensures client == None && apiKey == None && httpReferer == None && xTitle == None
    {
      client := None;
      apiKey := None;
      httpReferer := None;
      xTitle := None;
    }

    method WithClient(c: HttpClient)
      modifies this
      ensures client == Some(c)
      ensures apiKey == old(apiKey) && httpReferer == old(httpReferer) && xTitle == old(xTitle)
    {
      client := Some(c);
    }

    method WithApiKey(key: string)
      modifies this
      ensures apiKey == Some(key)
      ensures client == old(client) && httpReferer == old(httpReferer) && xTitle == old(xTitle)
    {
      apiKey := Some(key);
    }

    /** `api_key_from_env`: reads `OPENROUTER_API_KEY`; on failure the builder is not changed. */
    method ApiKeyFromEnv(env: Env.Environment) returns (r: Result<(), Env.VarError>)
      modifies this
      ensures client == old(client) && httpReferer == old(httpReferer) && xTitle == old(xTitle)
      ensures Env.Var(env, ApiKeyVar).Success? ==> r.Success? && apiKey == Some(Env.Var(env, ApiKeyVar).value)
      ensures Env.Var(env, ApiKeyVar).Failure? ==> r == Failure(Env.Var(env, ApiKeyVar).error) && apiKey == old(apiKey)
    {
      match Env.Var(env, ApiKeyVar)
      case Failure(e) =>
        return Failure(e);
      case Success(key) =>
        apiKey := Some(key);
        return Success(());
    }

    method WithHttpReferer(referer: string)
      modifies this
      ensures httpReferer == Some(referer)
      ensures client == old(client) && apiKey == old(apiKey) && xTitle == old(xTitle)
    {
      httpReferer := Some(referer);
    }

    method WithXTitle(title: string)
      modifies this
      ensures xTitle == Some(title)
      ensures client == old(client) && apiKey == old(apiKey) && httpReferer == old(httpReferer)
    {
      xTitle := Some(title);
    }

    /** `build`: a missing client is reported before a missing key; the optional headers are carried over as set. */
    method Build() returns (r: Result<Openrouter, Error>)
      ensures client.None? ==> r == Failure(ToError(MissingClientError))
      ensures client.Some? && apiKey.None? ==> r == Failure(ToError(MissingApiKeyError))
      ensures client.Some? && apiKey.Some? ==> r == Success(Openrouter(client.value, apiKey.value, httpReferer, xTitle))
    {
      if client.None? {
        return Failure(ToError(MissingClientError));
      }
      if apiKey.None? {
        return Failure(ToError(MissingApiKeyError));
      }
      return Success(Openrouter(client.value, apiKey.value, httpReferer, xTitle));
    }
  }

  /** `base_url.join("chat/completions")`: the base ends in '/', so the segment is appended. */
  const ChatUrl := BaseUrl + "chat/completions"

  /** `base_url.join("models")`. */
  const ModelsUrl := BaseUrl + "models"

  /** The two endpoints differ. */
  lemma EndpointsDiffer()
    ensures ChatUrl != ModelsUrl
  {
    assert |ChatUrl| != |ModelsUrl|;
  }

  /** The map of an optional header: present exactly when the client holds a value. */
  function OptionalHeader(name: string, value: Option<string>): map<string, string> {
    if value.Some? then map[name := value.value] else map[]
  }

  /**
   * The headers of a chat call: the JSON content type, each attribution
   * header the client was built with, and the bearer token.
   */
  function Headers(c: Openrouter): (h: map<string, string>)
    ensures "Content-Type" in h && h["Content-Type"] == "application/json"
    ensures "Authorization" in h && h["Authorization"] == "Bearer " + c.apiKey
    ensures "HTTP-Referer" in h <==> c.httpReferer.Some?
    ensures c.httpReferer.Some? ==> h["HTTP-Referer"] == c.httpReferer.value
    ensures "X-Title" in h <==> c.xTitle.Some?
    ensures c.xTitle.Some? ==> h["X-Title"] == c.xTitle.value
    ensures forall k :: k in h ==> k in {"Content-Type", "HTTP-Referer", "X-Title", "Authorization"}
  {
    map["Content-Type" := "application/json"]
      + OptionalHeader("HTTP-Referer", c.httpReferer)
      + OptionalHeader("X-Title", c.xTitle)
      + map["Authorization" := "Bearer " + c.apiKey]
  }

  /** The single user message of a chat body. */
  function UserMessage(text: string): Json {
    Object(map["role" := Str("user"), "content" := Str(text)])
  }

  /** `{"model": id, "messages": [{"role": "user", "content": text}]}`, with `"stream": true` for a streaming call. */
  function ChatBody(m: OpenrouterModels.OpenrouterModel, text: string, stream: bool): Json {
    var fields := map["model" := Str(OpenrouterModels.AsRef(m)), "messages" := Array([UserMessage(text)])];
    Object(if stream then fields["stream" := Bool(true)] else fields)
  }

  /** The prompt of the first user message of a chat body. */
  function PromptOf(j: Json): Option<string> {
    match Get(j, "messages")
    case Some(Array(items)) =>
      if |items| > 0 && GetString(items[0], "role") == Some("user") then GetString(items[0], "content") else None
    case _ => None
  }

  /** Model and prompt can be read back out of the body, and only the streaming body asks for a stream. */
  lemma ChatBodyRoundTrip(m: OpenrouterModels.OpenrouterModel, text: string, stream: bool)
    ensures GetString(ChatBody(m, text, stream), "model") == Some(m.name)
    ensures PromptOf(ChatBody(m, text, stream)) == Some(text)
    ensures Get(ChatBody(m, text, stream), "stream") == if stream then Some(Bool(true)) else None
  {
    var fields := map["model" := Str(OpenrouterModels.AsRef(m)), "messages" := Array([UserMessage(text)])];
    assert "stream" !in fields;
  }

  /** The POST of `request` (`stream` false) and of `streaming_request` (`stream` true). */
  function Call(c: Openrouter, m: OpenrouterModels.OpenrouterModel, req: AiRequest, stream: bool): (call: HttpCall)
    ensures call.verb == POST && call.url == ChatUrl && call.client == c.client
    ensures call.headers == Headers(c)
    ensures call.body == Some(ChatBody(m, req.text, stream))
  {
    HttpCall(c.client, POST, ChatUrl, Headers(c), Some(ChatBody(m, req.text, stream)))
  }

  /** `Openrouter::request`. */
  function Request(c: Openrouter, m: OpenrouterModels.OpenrouterModel, req: AiRequest,
                   transport: HttpCall -> HttpReply,
                   parse: string -> Result<OpenrouterResponses.OpenrouterResponse, string>): Result<OpenrouterResponses.OpenrouterResponse, Error>
  {
    Receive(transport(Call(c, m, req, false)), parse)
  }

  /** An unauthenticated or refused call surfaces the status and the body text unchanged. */
  lemma RequestErrorStatus(c: Openrouter, m: OpenrouterModels.OpenrouterModel, req: AiRequest,
                           transport: HttpCall -> HttpReply,
                           parse: string -> Result<OpenrouterResponses.OpenrouterResponse, string>,
                           status: u16, text: string)
    requires transport(Call(c, m, req, false)) == Reply(status, Body(text))
    requires !IsSuccess(status)
    ensures Request(c, m, req, transport, parse) == Failure(ApiError(status, text))
  {
  }

  /** `data.contains("[DONE]")`: the test the stream uses to drop an event. */
  predicate IsDone(data: string) {
    Strings.Contains(data, "[DONE]")
  }

  /** The `filter_map` closure: a stream error is kept as a provider error, a done event is dropped, any other event is decoded. */
  function DecodeEvent(item: SseItem, parse: string -> Result<OpenrouterResponses.OpenrouterStreamResponse, string>): (r: Option<Result<OpenrouterResponses.OpenrouterStreamResponse, Error>>)
    ensures r.None? <==> item.Event? && IsDone(item.data)
    ensures item.EventError? ==> r == Some(Failure(ProviderError("OpenRouter", item.message)))
    ensures item.Event? && r.Some? ==>
      (r.value.Success? <==> parse(item.data).Success?) &&
      (r.value.Success? ==> r.value.value == parse(item.data).value) &&
      (r.value.Failure? ==> r.value.error == ParseError(parse(item.data).error))
  {
    match item
    case EventError(msg) => Some(Failure(ProviderError("OpenRouter", msg)))
    case Event(data) =>
      if IsDone(data) then None
      else match parse(data)
        case Success(v) => Some(Success(v))
        case Failure(d) => Some(Failure(ParseError(d)))
  }

  /** What one event contributes to the decoded stream. */
  function Kept(item: SseItem, parse: string -> Result<OpenrouterResponses.OpenrouterStreamResponse, string>): seq<Result<OpenrouterResponses.OpenrouterStreamResponse, Error>> {
    match DecodeEvent(item, parse)
    case None => []
    case Some(r) => [r]
  }

  /** The decoded stream, events taken in order. */
  function DecodeEvents(items: seq<SseItem>, parse: string -> Result<OpenrouterResponses.OpenrouterStreamResponse, string>): (rs: seq<Result<OpenrouterResponses.OpenrouterStreamResponse, Error>>)
    ensures |rs| <= |items|
  {
    if items == [] then [] else Kept(items[0], parse) + DecodeEvents(items[1..], parse)
  }

  /** The number of done events. */
  function DoneCount(items: seq<SseItem>): nat {
    if items == [] then 0
    else (if items[0].Event? && IsDone(items[0].data) then 1 else 0) + DoneCount(items[1..])
  }

  /** Decoding works event by event: a stream split in two decodes as its halves. */
  lemma {:induction false} DecodeEventsAppend(a: seq<SseItem>, b: seq<SseItem>, parse: string -> Result<OpenrouterResponses.OpenrouterStreamResponse, string>)
    ensures DecodeEvents(a + b, parse) == DecodeEvents(a, parse) + DecodeEvents(b, parse)
    decreases |a|
  {
    if a != [] {
      assert (a + b)[1..] == a[1..] + b;
      DecodeEventsAppend(a[1..], b, parse);
    } else {
      assert a + b == b;
    }
  }

  /** Exactly the done events are dropped. */
  lemma {:induction false} DecodeEventsLength(items: seq<SseItem>, parse: string -> Result<OpenrouterResponses.OpenrouterStreamResponse, string>)
    ensures |DecodeEvents(items, parse)| == |items| - DoneCount(items)
    decreases |items|
  {
    if items != [] {
      DecodeEventsLength(items[1..], parse);
    }
  }

  /** A done event does not end the stream: the events after it are still decoded. */
  lemma DoneDoesNotEndStream(before: seq<SseItem>, data: string, after: seq<SseItem>,
                             parse: string -> Result<OpenrouterResponses.OpenrouterStreamResponse, string>)
    requires IsDone(data)
    ensures DecodeEvents(before + [Event(data)] + after, parse) == DecodeEvents(before, parse) + DecodeEvents(after, parse)
  {
    var done := [Event(data)];
    assert DecodeEvents(done, parse) == [] by {
      assert Kept(done[0], parse) == [];
      assert done[1..] == [];
    }
    DecodeEventsAppend(before, done, parse);
    assert DecodeEvents(before + done, parse) == DecodeEvents(before, parse);
    DecodeEventsAppend(before + done, after, parse);
  }

  /** Any event whose data mentions "[DONE]" anywhere, a content chunk included, is dropped. */
  lemma DoneAnywhereDropped(pre: string, post: string, parse: string -> Result<OpenrouterResponses.OpenrouterStreamResponse, string>)
    ensures DecodeEvents([Event(pre + "[DONE]" + post)], parse) == []
  {
    assert Strings.Contains("[DONE]", "[DONE]") by {
      assert "[DONE]"[..|"[DONE]"|] == "[DONE]";
    }
    Strings.ContainsInContext(pre, "[DONE]", post, "[DONE]");
    assert [Event(pre + "[DONE]" + post)][1..] == [];
  }

  /** Without done events nothing is dropped: one element per event, in order. */
  lemma {:induction false} NoDoneKeepsEveryEvent(items: seq<SseItem>, parse: string -> Result<OpenrouterResponses.OpenrouterStreamResponse, string>)
    requires forall i :: 0 <= i < |items| && items[i].Event? ==> !IsDone(items[i].data)
    ensures |DecodeEvents(items, parse)| == |items|
    ensures forall i :: 0 <= i < |items| ==> Some(DecodeEvents(items, parse)[i]) == DecodeEvent(items[i], parse)
    decreases |items|
  {
    if items != [] {
      NoDoneKeepsEveryEvent(items[1..], parse);
      assert DecodeEvents(items, parse) == [DecodeEvent(items[0], parse).value] + DecodeEvents(items[1..], parse);
      forall i | 0 <= i < |items| ensures Some(DecodeEvents(items, parse)[i]) == DecodeEvent(items[i], parse) {
        if i > 0 {
          assert items[1..][i - 1] == items[i];
        }
      }
    }
  }

  /** `Openrouter::streaming_request`: an error status ends the call with an `ApiError`, otherwise the events are decoded. */
  function StreamingRequest(c: Openrouter, m: OpenrouterModels.OpenrouterModel, req: AiRequest,
                            transport: HttpCall -> StreamReply,
                            parse: string -> Result<OpenrouterResponses.OpenrouterStreamResponse, string>): (r: Result<seq<Result<OpenrouterResponses.OpenrouterStreamResponse, Error>>, Error>)
    ensures var reply := transport(Call(c, m, req, true));
      && (reply.StreamSendFailed? ==> r == Failure(RequestError(reply.detail)))
      && (reply.StreamReply? && !IsSuccess(reply.status) && reply.body.Body? ==> r == Failure(ApiError(reply.status, reply.body.text)))
      && (reply.StreamReply? && !IsSuccess(reply.status) && reply.body.BodyReadFailed? ==> r == Failure(RequestError(reply.body.detail)))
      && (reply.StreamReply? && IsSuccess(reply.status) ==> r == Success(DecodeEvents(reply.events, parse)))
  {
    match transport(Call(c, m, req, true))
    case StreamSendFailed(d) => Failure(RequestError(d))
    case StreamReply(status, body, events) =>
      if !IsSuccess(status) then
        match body
        case Body(text) => Failure(ApiError(status, text))
        case BodyReadFailed(d) => Failure(RequestError(d))
      else Success(DecodeEvents(events, parse))
  }

  /** The unauthenticated listing call: a GET with no headers at all. */
  function ModelsCall(c: Openrouter): (call: HttpCall)
    ensures call.verb == GET && call.url == ModelsUrl && call.client == c.client
    ensures call.headers == map[] && call.body == None
  {
    HttpCall(c.client, GET, ModelsUrl, map[], None)
  }

  /** `Openrouter::models`: the listing converted to model ids; a listing that does not decode is a `RequestError`. */
  function Models(c: Openrouter, transport: HttpCall -> HttpReply,
                  parse: string -> Result<OpenrouterResponses.ModelsList, string>): (r: Result<seq<ModelId>, Error>)
    ensures var received := ReceiveJson(transport(ModelsCall(c)), parse);
      && (received.Success? ==> r == Success(OpenrouterResponses.ModelIds(received.value)))
      && (received.Failure? ==> r == Failure(received.error))
  {
    match ReceiveJson(transport(ModelsCall(c)), parse)
    case Success(list) => Success(OpenrouterResponses.ModelIds(list))
    case Failure(e) => Failure(e)
  }

  /** A listed model keeps its id and its display name, one entry per listed item. */
  lemma ModelsKeepsListing(c: Openrouter, transport: HttpCall -> HttpReply,
                           parse: string -> Result<OpenrouterResponses.ModelsList, string>, text: string)
    requires transport(ModelsCall(c)) == Reply(200, Body(text))
    requires parse(text).Success?
    ensures Models(c, transport, parse).Success?
    ensures var ids := Models(c, transport, parse).value;
      var items := parse(text).value.data;
      |ids| == |items| && forall i :: 0 <= i < |items| ==> ids[i] == ModelId(items[i].id, items[i].name)
  {
  }

  /** `AiProvider::send_request`: a model that is not an `OpenrouterModel` is refused before any call. */
  function SendRequest(c: Openrouter, model: AnyModel.DynModel, req: AiRequest,
                       transport: HttpCall -> HttpReply,
                       parse: string -> Result<OpenrouterResponses.OpenrouterResponse, string>): (r: Result<AiResponse, Error>)
    ensures AnyModel.DowncastOpenrouter(model).None? ==> r == Failure(InvalidModelError(AnyModel.AsRef(model)))
    ensures model.OfOpenrouter? ==>
      match Request(c, model.openrouter, req, transport, parse)
      case Success(resp) => r == Success(OpenrouterResponses.ToAiResponse(resp))
      case Failure(e) => r == Failure(e)
  {
    match AnyModel.DowncastOpenrouter(model)
    case None => Failure(InvalidModelError(AnyModel.AsRef(model)))
    case Some(m) =>
      match Request(c, m, req, transport, parse)
      case Success(resp) => Success(OpenrouterResponses.ToAiResponse(resp))
      case Failure(e) => Failure(e)
  }

  /**
   * `AiProvider::send_streaming`: a foreign model, or a call that fails
   * before streaming, gives a one-element stream holding the error;
   * otherwise the decoded events, each chunk converted by `convert`.
   */
  function SendStreaming(c: Openrouter, model: AnyModel.DynModel, req: AiRequest,
                         transport: HttpCall -> StreamReply,
                         parse: string -> Result<OpenrouterResponses.OpenrouterStreamResponse, string>,
                         convert: OpenrouterResponses.OpenrouterStreamResponse -> AiResponse): (out: seq<Result<AiResponse, Error>>)
    ensures AnyModel.DowncastOpenrouter(model).None? ==> out == [Failure(InvalidModelError(AnyModel.AsRef(model)))]
    ensures model.OfOpenrouter? ==>
      match StreamingRequest(c, model.openrouter, req, transport, parse)
      case Failure(e) => out == [Failure(e)]
      case Success(rs) =>
        |out| == |rs| &&
        forall i :: 0 <= i < |rs| ==>
          (rs[i].Success? ==> out[i] == Success(convert(rs[i].value))) &&
          (rs[i].Failure? ==> out[i] == Failure(rs[i].error))
  {
    match AnyModel.DowncastOpenrouter(model)
    case None => [Failure(InvalidModelError(AnyModel.AsRef(model)))]
    case Some(m) =>
      match StreamingRequest(c, m, req, transport, parse)
      case Failure(e) => [Failure(e)]
      case Success(rs) =>
        seq(|rs|, i requires 0 <= i < |rs| =>
          match rs[i]
          case Success(chunk) => Success(convert(chunk))
          case Failure(e) => Failure(e))
  }

  /** A streamed call answered 401 yields exactly one element, the `ApiError` with the body text. */
  lemma StreamingUnauthorized(c: Openrouter, m: OpenrouterModels.OpenrouterModel, req: AiRequest,
                              transport: HttpCall -> StreamReply,
                              parse: string -> Result<OpenrouterResponses.OpenrouterStreamResponse, string>,
                              convert: OpenrouterResponses.OpenrouterStreamResponse -> AiResponse,
                              text: string, events: seq<SseItem>)
    requires transport(Call(c, m, req, true)) == StreamReply(401, Body(text), events)
    ensures SendStreaming(c, AnyModel.OfOpenrouter(m), req, transport, parse, convert) == [Failure(ApiError(401, text))]
  {
  }

  /** A foreign model's result does not depend on the transport: no call is made for it. */
  lemma ForeignModelMakesNoCall(c: Openrouter, model: AnyModel.DynModel, req: AiRequest,
                                t1: HttpCall -> HttpReply, t2: HttpCall -> HttpReply,
                                s1: HttpCall -> StreamReply, s2: HttpCall -> StreamReply,
                                parse: string -> Result<OpenrouterResponses.OpenrouterResponse, string>,
                                parseChunk: string -> Result<OpenrouterResponses.OpenrouterStreamResponse, string>,
                                convert: OpenrouterResponses.OpenrouterStreamResponse -> AiResponse)
    requires !model.OfOpenrouter?
    ensures SendRequest(c, model, req, t1, parse) == SendRequest(c, model, req, t2, parse)
    ensures SendStreaming(c, model, req, s1, parseChunk, convert) == SendStreaming(c, model, req, s2, parseChunk, convert)
  {
  }
}

/**
 * The older, hand-written Gemini client (gemini/src/settings.rs): a catalog
 * of five models written out as `match` arms, and a `send_request` that
 * sends to a base URL chosen by the caller, performs no type check on the
 * model, and reads the body chunk by chunk before decoding it. Its
 * `AiResponse` carries the text only.
 */
module GeminiSettings {
  import opened Wrappers
  import opened Core
  import opened CoreError
  import opened Http
  import Strings
  import Gemini
  import GeminiResponses

  datatype GeminiModel = Flash | FlashPro | FlashLite | FlashThinking | Flash25Preview

  /** `TryFrom<&str>`: the five ids, anything else refused by name. */
  function TryFrom(s: string): (r: Result<GeminiModel, Error>)
    ensures r.Failure? ==> r.error == InvalidModelError(s)
  {
    if s == "gemini-2.0-flash" then Success(Flash)
    else if s == "gemini-2.0-flash-lite" then Success(FlashLite)
    else if s == "gemini-2.0-flash-thinking-exp-01-21" then Success(FlashThinking)
    else if s == "gemini-2.5-pro-exp-03-25" then Success(FlashPro)
    else if s == "gemini-2.5-flash-preview-04-17" then Success(Flash25Preview)
    else Failure(InvalidModelError(s))
  }

  /** `AsRef<str>`: the wire id. */
  function AsRef(m: GeminiModel): string {
    match m
    case Flash => "gemini-2.0-flash"
    case FlashPro => "gemini-2.5-pro-exp-03-25"
    case FlashLite => "gemini-2.0-flash-lite"
    case FlashThinking => "gemini-2.0-flash-thinking-exp-01-21"
    case Flash25Preview => "gemini-2.5-flash-preview-04-17"
  }

  /** `Display`: the wire id again. */
  function Display(m: GeminiModel): (s: string)
    ensures TryFrom(s) == Success(m)
  {
    TryFromAsRef(m);
    AsRef(m)
  }

  /** `model_id`: the id written out a second time, next to a display name. */
  function ModelIdOf(m: GeminiModel): ModelId {
    match m
    case Flash => ModelId("gemini-2.0-flash", "Gemini 2.0 Flash")
    case FlashPro => ModelId("gemini-2.5-pro-exp-03-25", "Gemini 2.5 Pro")
    case FlashLite => ModelId("gemini-2.0-flash-lite", "Gemini 2.0 Flash Lite")
    case FlashThinking => ModelId("gemini-2.0-flash-thinking-exp-01-21", "Gemini 2.0 Flash Thinking")
    case Flash25Preview => ModelId("gemini-2.5-flash-preview-04-17", "Gemini 2.5 Flash Preview")
  }

  /** The position `EnumIter` gives a variant: its place in the declaration. */
  function Ordinal(m: GeminiModel): nat {
    match m
    case Flash => 0
    case FlashPro => 1
    case FlashLite => 2
    case FlashThinking => 3
    case Flash25Preview => 4
  }

  /** `variants()`: the model id of every variant, in declaration order. */
  function Variants(): (vs: seq<ModelId>)
    ensures |vs| == 5
    ensures forall m :: vs[Ordinal(m)] == ModelIdOf(m)
  {
    [ModelIdOf(Flash), ModelIdOf(FlashPro), ModelIdOf(FlashLite), ModelIdOf(FlashThinking), ModelIdOf(Flash25Preview)]
  }

  /** Parsing a model's wire id gives that model back. */
  lemma TryFromAsRef(m: GeminiModel)
    ensures TryFrom(AsRef(m)) == Success(m)
  {
    match m
    case Flash =>
    case FlashPro =>
      assert AsRef(m)[9] == '5' && "gemini-2.0-flash"[9] == '0';
      assert AsRef(m)[9] != "gemini-2.0-flash-lite"[9];
      assert AsRef(m)[9] != "gemini-2.0-flash-thinking-exp-01-21"[9];
    case FlashLite =>
    case FlashThinking =>
    case Flash25Preview =>
      assert AsRef(m)[9] == '5' && "gemini-2.0-flash"[9] == '0';
      assert AsRef(m)[9] != "gemini-2.0-flash-lite"[9];
      assert AsRef(m)[9] != "gemini-2.0-flash-thinking-exp-01-21"[9];
  }

  /** Every accepted string is the wire id of the model returned. */
  lemma TryFromSound(s: string, m: GeminiModel)
    requires TryFrom(s) == Success(m)
    ensures AsRef(m) == s
  {
  }

  /** The id of `model_id` is the wire id, for every variant. */
  lemma ModelIdMatchesAsRef(m: GeminiModel)
    ensures ModelIdOf(m).id == AsRef(m)
  {
  }

  /** An unknown name is refused and printed as "Invalid model name: nonexistent-model". */
  lemma TryFromNonexistent()
    ensures TryFrom("nonexistent-model") == Failure(InvalidModelError("nonexistent-model"))
    ensures CoreError.Display(TryFrom("nonexistent-model").error) == "Invalid model name: " + "nonexistent-model"
  {
    assert "nonexistent-model"[0] == 'n';
    CoreError.InvalidModelDisplay("nonexistent-model");
  }

  /** The legacy `AiResponse`: the text and nothing else. */
  datatype LegacyResponse = LegacyResponse(text: string)

  /** A client; unlike the current one, the base URL is whatever the caller passed. */
  datatype Client = Client(client: HttpClient, baseUrl: string, apiKey: string)

  /** `Gemini::new`. */
  function New(client: HttpClient, baseUrl: string, apiKey: string): (g: Client)
    ensures g.client == client && g.baseUrl == baseUrl && g.apiKey == apiKey
  {
    Client(client, baseUrl, apiKey)
  }

  /** `format!("{}/{}:generateContent", base_url, model.as_ref())`. */
  function RequestUrl(baseUrl: string, model: string): (url: string)
    ensures |url| == |baseUrl| + 1 + |model| + |":generateContent"|
    ensures url[..|baseUrl| + 1] == baseUrl + "/"
    ensures url[|baseUrl| + 1..|url| - |":generateContent"|] == model
    ensures url[|url| - |":generateContent"|..] == ":generateContent"
  {
    var url := baseUrl + "/" + model + ":generateContent";
    assert url == (baseUrl + "/") + model + ":generateContent";
    url
  }

  /** One read of `response.chunk().await?`: the next piece of the body, or a transport error. */
  datatype ChunkRead = Chunk(data: string) | ReadFailed(detail: string)

  /** A reply read chunk by chunk, the body reader ending after the last item. */
  datatype ChunkedReply = ChunkSendFailed(detail: string) | ChunkedReply(status: u16, body: Body, chunks: seq<ChunkRead>)

  /** The first `k` reads all delivered data and read `k` failed. */
  predicate FirstFailureAt(chunks: seq<ChunkRead>, k: nat) {
    k < |chunks| && chunks[k].ReadFailed? && forall j :: 0 <= j < k ==> chunks[j].Chunk?
  }

  /** The data of every read, in order. */
  function ChunkData(chunks: seq<ChunkRead>): (ds: seq<string>)
    ensures |ds| == |chunks|
    ensures forall i :: 0 <= i < |chunks| && chunks[i].Chunk? ==> ds[i] == chunks[i].data
  {
    seq(|chunks|, i requires 0 <= i < |chunks| => if chunks[i].Chunk? then chunks[i].data else "")
  }

  /**
   * The buffer the read loop fills: all the data in order when every read
   * succeeds, otherwise the error of the first failed read.
   */
  function Collect(chunks: seq<ChunkRead>): (r: Result<string, Error>)
    ensures r.Success? <==> forall i :: 0 <= i < |chunks| ==> chunks[i].Chunk?
    ensures r.Success? ==> r.value == Strings.Concat(ChunkData(chunks))
    ensures r.Failure? ==> r.error.RequestError?
    ensures forall k: nat :: FirstFailureAt(chunks, k) ==> r == Failure(RequestError(chunks[k].detail))
    decreases |chunks|
  {
    if chunks == [] then Success("")
    else match chunks[0]
      case ReadFailed(d) =>
        assert forall k: nat :: FirstFailureAt(chunks, k) ==> k == 0;
        Failure(RequestError(d))
      case Chunk(d) =>
        match Collect(chunks[1..])
        case Failure(e) =>
          assert forall k: nat :: FirstFailureAt(chunks, k) ==> k > 0 && FirstFailureAt(chunks[1..], k - 1);
          Failure(e)
        case Success(rest) =>
          assert ChunkData(chunks) == [d] + ChunkData(chunks[1..]);
          Success(d + rest)
  }

  /** The `while let Some(chunk) = response.chunk().await?` loop. */
  method CollectChunks(chunks: seq<ChunkRead>) returns (r: Result<string, Error>)
    ensures r == Collect(chunks)
  {
    var buffer := "";
    var i := 0;
    while i < |chunks|
      invariant 0 <= i <= |chunks|
      invariant forall j :: 0 <= j < i ==> chunks[j].Chunk?
      invariant buffer == Strings.Concat(ChunkData(chunks[..i]))
    {
      match chunks[i]
      case ReadFailed(d) =>
        assert FirstFailureAt(chunks, i);
        return Failure(RequestError(d));
      case Chunk(d) =>
        assert ChunkData(chunks[..i + 1]) == ChunkData(chunks[..i]) + [d];
        Strings.ConcatAppend(ChunkData(chunks[..i]), [d]);
        Strings.ConcatSingle(d);
        buffer := buffer + d;
      i := i + 1;
    }
    assert chunks[..i] == chunks;
    return Success(buffer);
  }

  /** The POST of `send_request`: the same headers and payload as the current client. */
  function Call(g: Client, model: string, req: AiRequest): (call: HttpCall)
    ensures call.verb == POST && call.client == g.client && call.url == RequestUrl(g.baseUrl, model)
    ensures call.headers.Keys == {Gemini.ApiKeyHeader, "Content-Type"}
    ensures call.headers[Gemini.ApiKeyHeader] == g.apiKey && call.headers["Content-Type"] == "application/json"
    ensures call.body == Some(Gemini.Payload(req.text))
  {
    HttpCall(g.client, POST, RequestUrl(g.baseUrl, model), Gemini.Headers(g.apiKey), Some(Gemini.Payload(req.text)))
  }

  /** What `send_request` resolves to, for a model whose `as_ref` is `model`. */
  function SendRequestResult(g: Client, model: string, req: AiRequest,
                             transport: HttpCall -> ChunkedReply,
                             parse: string -> Result<GeminiResponses.GeminiResponse, string>): Result<LegacyResponse, Error>
  {
    match transport(Call(g, model, req))
    case ChunkSendFailed(d) => Failure(RequestError(d))
    case ChunkedReply(status, body, chunks) =>
      if !IsSuccess(status) then
        match body
        case Body(text) => Failure(ApiError(status, text))
        case BodyReadFailed(d) => Failure(RequestError(d))
      else
        match Collect(chunks)
        case Failure(e) => Failure(e)
        case Success(buffer) =>
          match parse(buffer)
          case Failure(d) => Failure(ParseError(d))
          case Success(resp) => Success(LegacyResponse(GeminiResponses.ExtractText(resp)))
  }

  /** `AiProvider::send_request`: the call, the status check, the read loop and the decoding. */
  method SendRequest(g: Client, model: string, req: AiRequest,
                     transport: HttpCall -> ChunkedReply,
                     parse: string -> Result<GeminiResponses.GeminiResponse, string>) returns (r: Result<LegacyResponse, Error>)
    ensures r == SendRequestResult(g, model, req, transport, parse)
  {
    var reply := transport(Call(g, model, req));
    match reply
    case ChunkSendFailed(d) =>
      return Failure(RequestError(d));
    case ChunkedReply(status, body, chunks) =>
      if !IsSuccess(status) {
        match body
        case Body(text) =>
          return Failure(ApiError(status, text));
        case BodyReadFailed(d) =>
          return Failure(RequestError(d));
      }
      var buffer := CollectChunks(chunks);
      if buffer.Failure? {
        return Failure(buffer.error);
      }
      match parse(buffer.value)
      case Failure(d) =>
        return Failure(ParseError(d));
      case Success(resp) =>
        return Success(LegacyResponse(GeminiResponses.ExtractText(resp)));
  }

  /** No model is refused: whatever its type, its `as_ref` is put into the URL and sent. */
  lemma NeverInvalidModel(g: Client, model: string, req: AiRequest,
                          transport: HttpCall -> ChunkedReply,
                          parse: string -> Result<GeminiResponses.GeminiResponse, string>)
    ensures var r := SendRequestResult(g, model, req, transport, parse);
      r.Failure? ==> !r.error.InvalidModelError?
  {
    match transport(Call(g, model, req))
    case ChunkSendFailed(_) =>
    case ChunkedReply(status, body, chunks) =>
      var collected := Collect(chunks);
  }

  /** An error status is returned with the body text, whatever the chunks would have held. */
  lemma ErrorStatusSkipsBody(g: Client, model: string, req: AiRequest,
                             transport: HttpCall -> ChunkedReply,
                             parse: string -> Result<GeminiResponses.GeminiResponse, string>,
                             status: u16, text: string, chunks: seq<ChunkRead>)
    requires transport(Call(g, model, req)) == ChunkedReply(status, Body(text), chunks)
    requires !IsSuccess(status)
    ensures SendRequestResult(g, model, req, transport, parse) == Failure(ApiError(status, text))
  {
  }

  /** On success the decoder sees the concatenation of all chunks, in order. */
  lemma DecodesConcatenatedChunks(g: Client, model: string, req: AiRequest,
                                  transport: HttpCall -> ChunkedReply,
                                  parse: string -> Result<GeminiResponses.GeminiResponse, string>,
                                  status: u16, body: Body, chunks: seq<ChunkRead>)
    requires transport(Call(g, model, req)) == ChunkedReply(status, body, chunks)
    requires IsSuccess(status)
    requires forall i :: 0 <= i < |chunks| ==> chunks[i].Chunk?
    requires parse(Strings.Concat(ChunkData(chunks))).Success?
    ensures SendRequestResult(g, model, req, transport, parse) ==
      Success(LegacyResponse(GeminiResponses.ExtractText(parse(Strings.Concat(ChunkData(chunks))).value)))
  {
  }

  /** A read that fails ends the call with that transport error, even after data has arrived. */
  lemma FailedReadAborts(g: Client, model: string, req: AiRequest,
                         transport: HttpCall -> ChunkedReply,
                         parse: string -> Result<GeminiResponses.GeminiResponse, string>,
                         status: u16, body: Body, chunks: seq<ChunkRead>, k: nat)
    requires transport(Call(g, model, req)) == ChunkedReply(status, body, chunks)
    requires IsSuccess(status)
    requires FirstFailureAt(chunks, k)
    ensures SendRequestResult(g, model, req, transport, parse) == Failure(RequestError(chunks[k].detail))
  {
  }
}

/**
 * The OpenAI provider (openai/src/lib.rs): its error type, the builder, the
 * shape of a Responses API call, and `send_request`, which narrows a model
 * by parsing its wire id rather than by its type.
 */
module Openai {
  import opened Wrappers
  import opened Core
  import opened CoreError
  import opened Json
  import opened Http
  import Env
  import OpenaiModels
  import OpenaiResponses
  import AnyModel
  import GeminiModels
  import OpenrouterModels

  datatype OpenaiError = MissingClientError | MissingApiKeyError

  /** `Display for OpenaiError`. */
  function DisplayError(e: OpenaiError): string {
    match e
    case MissingClientError => "HTTP client is required"
    case MissingApiKeyError => "API key is required"
  }

  /** `From<OpenaiError> for Error`: a provider error tagged "OpenAI". */
  function ToError(e: OpenaiError): (r: Error)
    ensures r.ProviderError? && r.provider == "OpenAI"
  {
    match e
    case MissingApiKeyError => ProviderError("OpenAI", "Missing API Key")
    case MissingClientError => ProviderError("OpenAI", "Missing request::Client")
  }

  /** The two builder errors stay distinguishable, and print in the provider-settings format. */
  /**
   * The two builder errors print different texts, and neither is the message
   * the conversion to `Error` uses: the two wordings differ.
   */
  lemma DisplayErrorTexts(e1: OpenaiError, e2: OpenaiError)
    ensures DisplayError(e1) == DisplayError(e2) ==> e1 == e2
    ensures DisplayError(e1) != ToError(e1).error
  {
    assert DisplayError(e1)[0] != ToError(e1).error[0];
    if e1 != e2 {
      assert DisplayError(e1)[0] != DisplayError(e2)[0];
    }
  }

  lemma ToErrorTexts(e1: OpenaiError, e2: OpenaiError)
    ensures ToError(e1) == ToError(e2) ==> e1 == e2
    ensures CoreError.Display(ToError(MissingApiKeyError)) == "Provider settings error: " + "OpenAI" + " : " + "Missing API Key"
    ensures CoreError.Display(ToError(MissingClientError)) == "Provider settings error: " + "OpenAI" + " : " + "Missing request::Client"
  {
    CoreError.ProviderErrorDisplay("OpenAI", "Missing API Key");
    CoreError.ProviderErrorDisplay("OpenAI", "Missing request::Client");
  }

  const BaseUrl := "https://api.openai.com/v1/responses"
  const ApiKeyVar := "OPENAI_API_KEY"

  /** A configured client; every call goes to `BaseUrl`. */
  datatype Openai = Openai(client: HttpClient, apiKey: string)

  /** `OpenaiBuilder`. */
  class Builder {
    var client: Option<HttpClient>
    var apiKey: Option<string>

    /** `OpenaiBuilder::new`, the derived default. */
    constructor ()
      ensures client == None && apiKey == None
    {
      client := None;
      apiKey := None;
    }

    method WithClient(c: HttpClient)
      modifies this
      ensures client == Some(c) && apiKey == old(apiKey)
    {
      client := Some(c);
    }

    method WithApiKey(key: string)
      modifies this
      ensures apiKey == Some(key) && client == old(client)
    {
      apiKey := Some(key);
    }

    /** `api_key_from_env`: reads `OPENAI_API_KEY`; on failure the builder is not changed. */
    method ApiKeyFromEnv(env: Env.Environment) returns (r: Result<(), Env.VarError>)
      modifies this
      ensures client == old(client)
      ensures Env.Var(env, ApiKeyVar).Success? ==> r.Success? && apiKey == Some(Env.Var(env, ApiKeyVar).value)
      ensures Env.Var(env, ApiKeyVar).Failure? ==> r == Failure(Env.Var(env, ApiKeyVar).error) && apiKey == old(apiKey)
    {
      match Env.Var(env, ApiKeyVar)
      case Failure(e) =>
        return Failure(e);
      case Success(key) =>
        apiKey := Some(key);
        return Success(());
    }

    /** `build`: a missing client is reported before a missing key. */
    method Build() returns (r: Result<Openai, Error>)
      ensures client.None? ==> r == Failure(ToError(MissingClientError))
      ensures client.Some? && apiKey.None? ==> r == Failure(ToError(MissingApiKeyError))
      ensures client.Some? && apiKey.Some? ==> r == Success(Openai(client.value, apiKey.value))
    {
      if client.None? {
        return Failure(ToError(MissingClientError));
      }
      if apiKey.None? {
        return Failure(ToError(MissingApiKeyError));
      }
      return Success(Openai(client.value, apiKey.value));
    }
  }

  /** `{"model": id, "input": text}` */
  function Body(m: OpenaiModels.OpenaiModel, text: string): Json {
    Object(map["model" := Str(OpenaiModels.AsRef(m)), "input" := Str(text)])
  }

  /** The model and the prompt can be read back out of the body. */
  lemma BodyRoundTrip(m: OpenaiModels.OpenaiModel, text: string)
    ensures GetString(Body(m, text), "input") == Some(text)
    ensures GetString(Body(m, text), "model").Some?
    ensures OpenaiModels.TryFrom(GetString(Body(m, text), "model").value) == Success(m)
  {
    var id := OpenaiModels.AsRef(m);
    BodyFields(id, text, Body(m, text));
    OpenaiModels.TryFromAsRef(m);
  }

  lemma BodyFields(id: string, text: string, body: Json)
    requires body == Object(map["model" := Str(id), "input" := Str(text)])
    ensures GetString(body, "input") == Some(text) && GetString(body, "model") == Some(id)
  {
  }

  /** The call of `Openai::request`: a JSON POST to the responses endpoint with a bearer token. */
  function Call(c: Openai, m: OpenaiModels.OpenaiModel, req: AiRequest): (call: HttpCall)
    ensures call.verb == POST && call.url == BaseUrl && call.client == c.client
    ensures call.headers == map["Content-Type" := "application/json", "Authorization" := "Bearer " + c.apiKey]
    ensures call.body == Some(Body(m, req.text))
  {
    HttpCall(c.client, POST, BaseUrl, map["Content-Type" := "application/json", "Authorization" := "Bearer " + c.apiKey], Some(Body(m, req.text)))
  }

  /** `Openai::request`. */
  function Request(c: Openai, m: OpenaiModels.OpenaiModel, req: AiRequest,
                   transport: HttpCall -> HttpReply,
                   parse: string -> Result<OpenaiResponses.OpenaiResponse, string>): Result<OpenaiResponses.OpenaiResponse, Error>
  {
    Receive(transport(Call(c, m, req)), parse)
  }

  /** `model.as_ref().parse()`: narrowing by the wire id, through the generated catalog lookup. */
  function Narrow(model: AnyModel.DynModel): (r: Result<OpenaiModels.OpenaiModel, Error>)
    ensures r.Success? ==> OpenaiModels.AsRef(r.value) == AnyModel.AsRef(model)
  {
    var r := OpenaiModels.TryFrom(AnyModel.AsRef(model));
    if r.Success? then OpenaiModels.TryFromSound(AnyModel.AsRef(model), r.value); r
    else r
  }

  /** `AiProvider::send_request`: a wire id that is no OpenAI id is refused with that id, before any call. */
  function SendRequest(c: Openai, model: AnyModel.DynModel, req: AiRequest,
                       transport: HttpCall -> HttpReply,
                       parse: string -> Result<OpenaiResponses.OpenaiResponse, string>): (r: Result<AiResponse, Error>)
    ensures Narrow(model).Failure? ==> r == Failure(InvalidModelError(AnyModel.AsRef(model)))
    ensures Narrow(model).Success? ==>
      match Request(c, Narrow(model).value, req, transport, parse)
      case Success(resp) => r == Success(OpenaiResponses.ToAiResponse(resp))
      case Failure(e) => r == Failure(e)
  {
    match Narrow(model)
    case Failure(_) => Failure(InvalidModelError(AnyModel.AsRef(model)))
    case Success(m) =>
      match Request(c, m, req, transport, parse)
      case Success(resp) => Success(OpenaiResponses.ToAiResponse(resp))
      case Failure(e) => Failure(e)
  }

  /** An OpenAI model always narrows to itself. */
  lemma NarrowOwnModel(o: OpenaiModels.OpenaiModel)
    ensures Narrow(AnyModel.OfOpenai(o)) == Success(o)
  {
    OpenaiModels.TryFromAsRef(o);
  }

  /**
   * Narrowing looks at the wire id only: a model of any other type whose wire
   * id is an OpenAI id, such as an OpenRouter model named "o3", is accepted
   * and sent as that OpenAI model.
   */
  lemma NarrowAcceptsAnyTypeWithOpenaiId(model: AnyModel.DynModel, o: OpenaiModels.OpenaiModel)
    requires AnyModel.AsRef(model) == OpenaiModels.AsRef(o)
    ensures Narrow(model) == Success(o)
    ensures Narrow(AnyModel.OfOpenrouter(OpenrouterModels.New("o3"))) == Success(OpenaiModels.Gpto3)
  {
    OpenaiModels.TryFromAsRef(o);
    OpenaiModels.TryFromAsRef(OpenaiModels.Gpto3);
  }

  /** A Gemini model is refused: no Gemini wire id is an OpenAI id. */
  lemma GeminiModelRefused(g: GeminiModels.GeminiModel)
    ensures Narrow(AnyModel.OfGemini(g)) == Failure(InvalidModelError(GeminiModels.AsRef(g)))
  {
    var s := GeminiModels.AsRef(g);
    GeminiModels.IdStartsWithGe(g);
    OpenaiModels.NoIdStartsWithGe(s);
  }

  /** When narrowing fails the result does not depend on the transport: no call is made. */
  lemma RefusedModelMakesNoCall(c: Openai, model: AnyModel.DynModel, req: AiRequest,
                                t1: HttpCall -> HttpReply, t2: HttpCall -> HttpReply,
                                parse: string -> Result<OpenaiResponses.OpenaiResponse, string>)
    requires Narrow(model).Failure?
    ensures SendRequest(c, model, req, t1, parse) == SendRequest(c, model, req, t2, parse)
  {
  }
}

/**
 * `AiProvider` (core/src/lib.rs): the three providers behind one interface,
 * and the blanket impls for `&T`, `&mut T`, `Box<T>` and `Arc<T>`, which
 * forward both calls to the provider they hold.
 */
module Provider {
  import opened Wrappers
  import opened Core
  import opened CoreError
  import opened Http
  import AnyModel
  import Gemini
  import GeminiResponses
  import Openai
  import OpenaiResponses
  import Openrouter
  import OpenrouterResponses

  /** The concrete providers. */
  datatype Concrete =
    | GeminiProvider(gemini: Gemini.Gemini)
    | OpenaiProvider(openai: Openai.Openai)
    | OpenrouterProvider(openrouter: Openrouter.Openrouter)

  /** A provider as a caller may hold it: directly, or behind any nesting of the four wrappers. */
  datatype Handle =
    | Direct(provider: Concrete)
    | Ref(inner: Handle)
    | RefMut(inner: Handle)
    | Boxed(inner: Handle)
    | Shared(inner: Handle)

  /**
   * Everything outside the model that a call depends on: the transport for
   * blocking and for streaming calls, the JSON decoders of each provider's
   * replies, and the conversion of an OpenRouter stream chunk.
   */
  datatype Wiring = Wiring(
    send: HttpCall -> HttpReply,
    stream: HttpCall -> StreamReply,
    parseGemini: string -> Result<GeminiResponses.GeminiResponse, string>,
    parseOpenai: string -> Result<OpenaiResponses.OpenaiResponse, string>,
    parseOpenrouter: string -> Result<OpenrouterResponses.OpenrouterResponse, string>,
    parseOpenrouterChunk: string -> Result<OpenrouterResponses.OpenrouterStreamResponse, string>,
    convertOpenrouterChunk: OpenrouterResponses.OpenrouterStreamResponse -> AiResponse)

  /** The provider at the bottom of a handle. */
  function Target(h: Handle): Concrete {
    match h
    case Direct(p) => p
    case Ref(inner) => Target(inner)
    case RefMut(inner) => Target(inner)
    case Boxed(inner) => Target(inner)
    case Shared(inner) => Target(inner)
  }

  /** `send_request` of each concrete provider. */
  function ConcreteSend(p: Concrete, model: AnyModel.DynModel, req: AiRequest, w: Wiring): (r: Result<AiResponse, Error>)
    ensures r.Failure? && r.error.InvalidModelError? ==> r.error.model == AnyModel.AsRef(model)
  {
    match p
    case GeminiProvider(g) => Gemini.SendRequest(g, model, req, w.send, w.parseGemini)
    case OpenaiProvider(o) => Openai.SendRequest(o, model, req, w.send, w.parseOpenai)
    case OpenrouterProvider(o) => Openrouter.SendRequest(o, model, req, w.send, w.parseOpenrouter)
  }

  /** `send_streaming` of the providers that have one; the OpenAI client implements none. */
  function ConcreteStream(p: Concrete, model: AnyModel.DynModel, req: AiRequest, w: Wiring): seq<Result<AiResponse, Error>>
    requires !p.OpenaiProvider?
  {
    match p
    case GeminiProvider(g) => Gemini.SendStreaming(g, model, req, w.stream, w.parseGemini)
    case OpenrouterProvider(o) => Openrouter.SendStreaming(o, model, req, w.stream, w.parseOpenrouterChunk, w.convertOpenrouterChunk)
  }

  /** `send_request` through a handle: each wrapper calls `(**self).send_request`. */
  function SendRequest(h: Handle, model: AnyModel.DynModel, req: AiRequest, w: Wiring): Result<AiResponse, Error> {
    match h
    case Direct(p) => ConcreteSend(p, model, req, w)
    case Ref(inner) => SendRequest(inner, model, req, w)
    case RefMut(inner) => SendRequest(inner, model, req, w)
    case Boxed(inner) => SendRequest(inner, model, req, w)
    case Shared(inner) => SendRequest(inner, model, req, w)
  }

  /** `send_streaming` through a handle, forwarded the same way. */
  function SendStreaming(h: Handle, model: AnyModel.DynModel, req: AiRequest, w: Wiring): seq<Result<AiResponse, Error>>
    requires !Target(h).OpenaiProvider?
  {
    match h
    case Direct(p) => ConcreteStream(p, model, req, w)
    case Ref(inner) => SendStreaming(inner, model, req, w)
    case RefMut(inner) => SendStreaming(inner, model, req, w)
    case Boxed(inner) => SendStreaming(inner, model, req, w)
    case Shared(inner) => SendStreaming(inner, model, req, w)
  }

  /** However deeply a provider is wrapped, both calls behave exactly as on the provider itself. */
  lemma {:induction false} ForwardingTransparent(h: Handle, model: AnyModel.DynModel, req: AiRequest, w: Wiring)
    ensures SendRequest(h, model, req, w) == ConcreteSend(Target(h), model, req, w)
    ensures !Target(h).OpenaiProvider? ==> SendStreaming(h, model, req, w) == ConcreteStream(Target(h), model, req, w)
    decreases h
  {
    match h
    case Direct(_) =>
    case Ref(inner) => ForwardingTransparent(inner, model, req, w);
    case RefMut(inner) => ForwardingTransparent(inner, model, req, w);
    case Boxed(inner) => ForwardingTransparent(inner, model, req, w);
    case Shared(inner) => ForwardingTransparent(inner, model, req, w);
  }

  /**
   * Gemini and OpenRouter refuse a model of a type they do not serve with an
   * `InvalidModelError` naming the model, before making a call. OpenAI is
   * left out: it narrows by wire id, not by type.
   */
  lemma ForeignModelRefused(h: Handle, typeName: string, wire: string, modelId: ModelId, req: AiRequest, w: Wiring)
    requires !Target(h).OpenaiProvider?
    ensures SendRequest(h, AnyModel.Foreign(typeName, wire, modelId), req, w) == Failure(InvalidModelError(wire))
    ensures SendStreaming(h, AnyModel.Foreign(typeName, wire, modelId), req, w) == [Failure(InvalidModelError(wire))]
  {
    ForwardingTransparent(h, AnyModel.Foreign(typeName, wire, modelId), req, w);
  }
}

/**
 * `dyn AiModel` (core/src/lib.rs): a model value whose concrete type is only
 * known at run time. The concrete type is a tag; `as_any().downcast_ref::<M>()`
 * succeeds exactly when the tag is `M`'s.
 */
module AnyModel {
  import opened Wrappers
  import opened Core
  import GeminiModels
  import OpenaiModels
  import OpenrouterModels

  /**
   * The model types of the three providers, and any other type a caller
   * implements `AiModel` for, which carries its own type name, wire id and
   * `ModelId`.
   */
  datatype DynModel =
    | OfGemini(gemini: GeminiModels.GeminiModel)
    | OfOpenai(openai: OpenaiModels.OpenaiModel)
    | OfOpenrouter(openrouter: OpenrouterModels.OpenrouterModel)
    | Foreign(typeName: string, wire: string, modelId: ModelId)

  /** `TypeId` of the concrete type. */
  datatype TypeTag = GeminiTag | OpenaiTag | OpenrouterTag | ForeignTag(name: string)

  function TypeOf(m: DynModel): TypeTag {
    match m
    case OfGemini(_) => GeminiTag
    case OfOpenai(_) => OpenaiTag
    case OfOpenrouter(_) => OpenrouterTag
    case Foreign(t, _, _) => ForeignTag(t)
  }

  /** `AsRef<str>` through the trait object. */
  function AsRef(m: DynModel): string {
    match m
    case OfGemini(g) => GeminiModels.AsRef(g)
    case OfOpenai(o) => OpenaiModels.AsRef(o)
    case OfOpenrouter(r) => OpenrouterModels.AsRef(r)
    case Foreign(_, w, _) => w
  }

  /** `model_id` through the trait object. */
  function ModelIdOf(m: DynModel): ModelId {
    match m
    case OfGemini(g) => GeminiModels.ModelIdOf(g)
    case OfOpenai(o) => OpenaiModels.ModelIdOf(o)
    case OfOpenrouter(r) => OpenrouterModels.ModelIdOf(r)
    case Foreign(_, _, id) => id
  }

  /** `downcast::<GeminiModel>()`: a copy of the value when it is one, `None` otherwise. */
  function DowncastGemini(m: DynModel): (r: Option<GeminiModels.GeminiModel>)
    ensures r.Some? <==> TypeOf(m) == GeminiTag
    ensures r.Some? ==> m == OfGemini(r.value)
  {
    if m.OfGemini? then Some(m.gemini) else None
  }

  /** `downcast::<OpenaiModel>()`. */
  function DowncastOpenai(m: DynModel): (r: Option<OpenaiModels.OpenaiModel>)
    ensures r.Some? <==> TypeOf(m) == OpenaiTag
    ensures r.Some? ==> m == OfOpenai(r.value)
  {
    if m.OfOpenai? then Some(m.openai) else None
  }

  /** `downcast::<OpenrouterModel>()`. */
  function DowncastOpenrouter(m: DynModel): (r: Option<OpenrouterModels.OpenrouterModel>)
    ensures r.Some? <==> TypeOf(m) == OpenrouterTag
    ensures r.Some? ==> m == OfOpenrouter(r.value)
  {
    if m.OfOpenrouter? then Some(m.openrouter) else None
  }

  /** Up-casting a concrete model and down-casting it to its own type gives the same value back. */
  lemma DowncastRoundTrip(g: GeminiModels.GeminiModel, o: OpenaiModels.OpenaiModel, r: OpenrouterModels.OpenrouterModel)
    ensures DowncastGemini(OfGemini(g)) == Some(g)
    ensures DowncastOpenai(OfOpenai(o)) == Some(o)
    ensures DowncastOpenrouter(OfOpenrouter(r)) == Some(r)
  {
  }

  /** A model value down-casts to at most one of the provider types, and a foreign one to none. */
  lemma DowncastExclusive(m: DynModel)
    ensures !(DowncastGemini(m).Some? && DowncastOpenai(m).Some?)
    ensures !(DowncastGemini(m).Some? && DowncastOpenrouter(m).Some?)
    ensures !(DowncastOpenai(m).Some? && DowncastOpenrouter(m).Some?)
    ensures m.Foreign? ==> DowncastGemini(m).None? && DowncastOpenai(m).None? && DowncastOpenrouter(m).None?
  {
  }

  /** For the three provider types the model id carries the wire id. */
  lemma ModelIdCarriesWireId(m: DynModel)
    requires !m.Foreign?
    ensures ModelIdOf(m).id == AsRef(m)
  {
  }
}

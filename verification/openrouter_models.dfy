/**
 * `OpenrouterModel` (openrouter/src/lib.rs): an open-ended model name, used
 * verbatim as wire id and display name.
 */
module OpenrouterModels {
  import opened Core

  datatype OpenrouterModel = OpenrouterModel(name: string)

  /** `OpenrouterModel::new`. */
  function New(modelName: string): (m: OpenrouterModel)
    ensures AsRef(m) == modelName
  {
    OpenrouterModel(modelName)
  }

  function AsRef(m: OpenrouterModel): string {
    m.name
  }

  /** The `AiModel` impl: the wrapped string serves as both id and name. */
  function ModelIdOf(m: OpenrouterModel): (id: ModelId)
    ensures id.id == AsRef(m) && id.name == AsRef(m)
  {
    ModelId(m.name, m.name)
  }

  /** Whatever name a model is created with is its wire id, its id and its display text. */
  lemma NameIsEverything(s: string)
    ensures AsRef(New(s)) == s
    ensures ModelIdOf(New(s)) == ModelId(s, s)
    ensures DisplayModelId(ModelIdOf(New(s))) == s
  {
  }

  /** Two models with the same wire id are the same model. */
  lemma AsRefInjective(m1: OpenrouterModel, m2: OpenrouterModel)
    requires AsRef(m1) == AsRef(m2)
    ensures m1 == m2
  {
  }
}

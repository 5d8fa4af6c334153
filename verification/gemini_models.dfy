/**
 * `GeminiModel` (gemini/src/lib.rs): the five Gemini models, their wire ids and display
 * names, with the impls generated by `#[derive(AiModel)]`.
 */
module GeminiModels {
  import opened Wrappers
  import opened Core
  import opened CoreError
  import Catalog
  import ModelDerive

  datatype GeminiModel =
    | Flash20
    | Flash20Lite
    | Flash25
    | Pro25
    | FlashThinking

  /** The number of variants. */
  const Count: nat := 5

  /** The variant's position in the declaration. */
  function Ordinal(m: GeminiModel): (v: nat)
    ensures v < Count
  {
    match m
    case Flash20 => 0
    case Flash20Lite => 1
    case Flash25 => 2
    case Pro25 => 3
    case FlashThinking => 4
  }

  function FromOrdinal(v: nat): (m: GeminiModel)
    requires v < Count
    ensures Ordinal(m) == v
  {
    if v == 0 then Flash20
    else if v == 1 then Flash20Lite
    else if v == 2 then Flash25
    else if v == 3 then Pro25
    else FlashThinking
  }

  /** Positions and variants are in one-to-one correspondence. */
  lemma OrdinalBijective(m: GeminiModel)
    ensures FromOrdinal(Ordinal(m)) == m
  {
  }

  /** The `#[model(id = ..., name = ...)]` attribute of each variant. */
  function Declared(m: GeminiModel): (e: Catalog.Entry)
  {
    match m
    case Flash20 => Catalog.Entry("Flash20", "gemini-2.0-flash", "Gemini 2.0 Flash")
    case Flash20Lite => Catalog.Entry("Flash20Lite", "gemini-2.0-flash-lite", "Gemini 2.0 Flash Lite")
    case Flash25 => Catalog.Entry("Flash25", "gemini-2.5-flash", "Gemini 2.5 Flash")
    case Pro25 => Catalog.Entry("Pro25", "gemini-2.5-pro", "Gemini 2.5 Pro")
    case FlashThinking => Catalog.Entry("FlashThinking", "gemini-2.0-flash-thinking-exp-01-21", "Gemini 2.0 Flash Thinking")
  }

  /** The attributes in declaration order: the table the derive works from. */
  function Table(): (t: Catalog.Table)
    ensures |t| == Count
  {
    seq(Count, i requires 0 <= i < Count => Declared(FromOrdinal(i)))
  }

  lemma TableAt(m: GeminiModel)
    ensures |Table()| == Count && Table()[Ordinal(m)] == Declared(m)
  {
    OrdinalBijective(m);
  }

  function AsRef(m: GeminiModel): (s: string)
    ensures s == Declared(m).id
  {
    TableAt(m);
    Catalog.AsRef(Table(), Ordinal(m))
  }

  /** `GeminiModel::try_from(&str)`. */
  function TryFrom(s: string): Result<GeminiModel, Error> {
    match Catalog.TryFrom(Table(), s)
    case Success(v) => Success(FromOrdinal(v))
    case Failure(e) => Failure(e)
  }

  function ModelIdOf(m: GeminiModel): (id: ModelId)
    ensures id.id == AsRef(m) && id.name == Declared(m).name
  {
    TableAt(m);
    Catalog.ModelIdOf(Table(), Ordinal(m))
  }

  function Variants(): seq<ModelId> {
    Catalog.Variants(Table())
  }

  /** `Display` writes the wire id. */
  function Display(m: GeminiModel): string {
    AsRef(m)
  }

  function Serialize(m: GeminiModel): string {
    Catalog.Serialize(Table(), Ordinal(m))
  }

  function Deserialize(s: string): Result<GeminiModel, Catalog.DeError> {
    match Catalog.Deserialize(Table(), s)
    case Success(v) => Success(FromOrdinal(v))
    case Failure(e) => Failure(e)
  }

  /** Different variants are declared with different ids. */
  lemma DeclaredIdsDistinct(a: GeminiModel, b: GeminiModel)
    requires a != b
    ensures Declared(a).id != Declared(b).id
  {
  }

  lemma TableUnique()
    ensures Catalog.UniqueIds(Table())
  {
    forall i, j | 0 <= i < j < |Table()| ensures Table()[i].id != Table()[j].id {
      DeclaredIdsDistinct(FromOrdinal(i), FromOrdinal(j));
    }
  }

  /** The declaration passes the macro's checks and derives exactly this table. */
  lemma DeclarationDerives()
    ensures ModelDerive.DeriveTable(ModelDerive.Declaration("GeminiModel", Table())) == Success(Table())
  {
    TableUnique();
    ModelDerive.DeriveDeclaration("GeminiModel", Table());
  }

  /** The wire ids the Gemini API expects. */
  lemma WireIds()
    ensures AsRef(Flash20) == "gemini-2.0-flash"
    ensures AsRef(Flash20Lite) == "gemini-2.0-flash-lite"
    ensures AsRef(Flash25) == "gemini-2.5-flash"
    ensures AsRef(Pro25) == "gemini-2.5-pro"
    ensures AsRef(FlashThinking) == "gemini-2.0-flash-thinking-exp-01-21"
    ensures DisplayModelId(ModelIdOf(Pro25)) == "Gemini 2.5 Pro"
  {
  }

  /** Parsing any model's wire id gives that model back. */
  lemma TryFromAsRef(m: GeminiModel)
    ensures TryFrom(AsRef(m)) == Success(m)
  {
    var v := Ordinal(m);
    TableUnique();
    Catalog.TryFromAsRef(Table(), v);
    OrdinalBijective(m);
  }

  /** What `Display` writes parses back to the same model. */
  lemma DisplayParses(m: GeminiModel)
    ensures TryFrom(Display(m)) == Success(m)
  {
    TryFromAsRef(m);
  }

  /** Every string `try_from` accepts is the wire id of the model it returns. */
  lemma TryFromSound(s: string, m: GeminiModel)
    requires TryFrom(s) == Success(m)
    ensures AsRef(m) == s
  {
    var v := Catalog.TryFrom(Table(), s).value;
    Catalog.TryFromSound(Table(), s, v);
  }

  /** A string that is no listed id is refused with the message "Invalid model name: <s>". */
  lemma TryFromInvalid(s: string)
    requires forall v :: v in Variants() ==> v.id != s
    ensures TryFrom(s) == Failure(InvalidModelError(s))
    ensures CoreError.Display(TryFrom(s).error) == "Invalid model name: " + s
  {
    Catalog.NotInVariants(Table(), s);
    Catalog.TryFromUnknown(Table(), s);
    assert TryFrom(s) == Failure(InvalidModelError(s));
    CoreError.InvalidModelDisplay(s);
  }

  /** The variant list names all five models with their ids, in declaration order. */
  lemma VariantsComplete(m: GeminiModel)
    ensures |Variants()| == Count
    ensures Variants()[Ordinal(m)] == ModelIdOf(m)
  {
  }

  lemma SerdeRoundTrip(m: GeminiModel)
    ensures Deserialize(Serialize(m)) == Success(m)
  {
    var v := Ordinal(m);
    TableUnique();
    Catalog.SerdeRoundTrip(Table(), v);
    OrdinalBijective(m);
  }

  /** Every Gemini wire id begins with "ge". */
  lemma IdStartsWithGe(m: GeminiModel)
    ensures |AsRef(m)| >= 2 && AsRef(m)[..2] == "ge"
  {
    assert AsRef(m)[..2] == [AsRef(m)[0], AsRef(m)[1]];
  }
}

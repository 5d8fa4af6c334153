/**
 * `OpenaiModel` (openai/src/lib.rs): the thirteen OpenAI models, their wire ids and display
 * names, with the impls generated by `#[derive(AiModel)]`.
 */
module OpenaiModels {
  import opened Wrappers
  import opened Core
  import opened CoreError
  import Catalog
  import ModelDerive

  datatype OpenaiModel =
    | Gpto3
    | Gpto3Pro
    | Gpto3Mini
    | Gpto4Mini
    | Gpt5
    | Gpt5Mini
    | Gpt5Nano
    | Gpt5Chat
    | Gpt41
    | Gpt41Mini
    | Gpt41Nano
    | Gpt4o
    | Gpt4oMini

  /** The number of variants. */
  const Count: nat := 13

  /** The variant's position in the declaration. */
  function Ordinal(m: OpenaiModel): (v: nat)
    ensures v < Count
  {
    match m
    case Gpto3 => 0
    case Gpto3Pro => 1
    case Gpto3Mini => 2
    case Gpto4Mini => 3
    case Gpt5 => 4
    case Gpt5Mini => 5
    case Gpt5Nano => 6
    case Gpt5Chat => 7
    case Gpt41 => 8
    case Gpt41Mini => 9
    case Gpt41Nano => 10
    case Gpt4o => 11
    case Gpt4oMini => 12
  }

  function FromOrdinal(v: nat): (m: OpenaiModel)
    requires v < Count
    ensures Ordinal(m) == v
  {
    if v == 0 then Gpto3
    else if v == 1 then Gpto3Pro
    else if v == 2 then Gpto3Mini
    else if v == 3 then Gpto4Mini
    else if v == 4 then Gpt5
    else if v == 5 then Gpt5Mini
    else if v == 6 then Gpt5Nano
    else if v == 7 then Gpt5Chat
    else if v == 8 then Gpt41
    else if v == 9 then Gpt41Mini
    else if v == 10 then Gpt41Nano
    else if v == 11 then Gpt4o
    else Gpt4oMini
  }

  /** Positions and variants are in one-to-one correspondence. */
  lemma OrdinalBijective(m: OpenaiModel)
    ensures FromOrdinal(Ordinal(m)) == m
  {
  }

  /** The `#[model(id = ..., name = ...)]` attribute of each variant. */
  function Declared(m: OpenaiModel): (e: Catalog.Entry)
  {
    match m
    case Gpto3 => Catalog.Entry("Gpto3", "o3", "GPT-o3")
    case Gpto3Pro => Catalog.Entry("Gpto3Pro", "o3-pro", "GPT-o3 Pro")
    case Gpto3Mini => Catalog.Entry("Gpto3Mini", "o3-mini", "GPT-o3 Mini")
    case Gpto4Mini => Catalog.Entry("Gpto4Mini", "o4-mini", "GPT-o4 Mini")
    case Gpt5 => Catalog.Entry("Gpt5", "gpt-5", "GPT-5")
    case Gpt5Mini => Catalog.Entry("Gpt5Mini", "gpt-5-mini", "GPT-5 Mini")
    case Gpt5Nano => Catalog.Entry("Gpt5Nano", "gpt-5-nano", "GPT-5 Nano")
    case Gpt5Chat => Catalog.Entry("Gpt5Chat", "gpt-5-chat-latest", "GPT-5 Chat")
    case Gpt41 => Catalog.Entry("Gpt41", "gpt-4.1", "GPT-4.1")
    case Gpt41Mini => Catalog.Entry("Gpt41Mini", "gpt-4.1-mini", "GPT-4.1 Mini")
    case Gpt41Nano => Catalog.Entry("Gpt41Nano", "gpt-4.1-nano", "GPT-4.1 Nano")
    case Gpt4o => Catalog.Entry("Gpt4o", "gpt-4o", "GPT-4o")
    case Gpt4oMini => Catalog.Entry("Gpt4oMini", "gpt-4o-mini", "GPT-4o Mini")
  }

  /** The attributes in declaration order: the table the derive works from. */
  function Table(): (t: Catalog.Table)
    ensures |t| == Count
  {
    seq(Count, i requires 0 <= i < Count => Declared(FromOrdinal(i)))
  }

  lemma TableAt(m: OpenaiModel)
    ensures |Table()| == Count && Table()[Ordinal(m)] == Declared(m)
  {
    OrdinalBijective(m);
  }

  function AsRef(m: OpenaiModel): (s: string)
    ensures s == Declared(m).id
  {
    TableAt(m);
    Catalog.AsRef(Table(), Ordinal(m))
  }

  /** `OpenaiModel::try_from(&str)`. */
  function TryFrom(s: string): Result<OpenaiModel, Error> {
    match Catalog.TryFrom(Table(), s)
    case Success(v) => Success(FromOrdinal(v))
    case Failure(e) => Failure(e)
  }

  function ModelIdOf(m: OpenaiModel): (id: ModelId)
    ensures id.id == AsRef(m) && id.name == Declared(m).name
  {
    TableAt(m);
    Catalog.ModelIdOf(Table(), Ordinal(m))
  }

  function Variants(): seq<ModelId> {
    Catalog.Variants(Table())
  }

  /** `Display` writes the wire id. */
  function Display(m: OpenaiModel): string {
    AsRef(m)
  }

  function Serialize(m: OpenaiModel): string {
    Catalog.Serialize(Table(), Ordinal(m))
  }

  function Deserialize(s: string): Result<OpenaiModel, Catalog.DeError> {
    match Catalog.Deserialize(Table(), s)
    case Success(v) => Success(FromOrdinal(v))
    case Failure(e) => Failure(e)
  }

  /** Different variants are declared with different ids. */
  lemma DeclaredIdsDistinct(a: OpenaiModel, b: OpenaiModel)
    requires a != b
    ensures Declared(a).id != Declared(b).id
  {
  }

  lemma TableUnique()
    ensures Catalog.UniqueIds(Table())
  {
    forall i, j | 0 <= i < j < |Table()| ensures Table()[i].id != Table()[j].id {
      DeclaredIdsDistinct(FromOrdinal(i), FromOrdinal(j));
    }
  }

  /** The declaration passes the macro's checks and derives exactly this table. */
  lemma DeclarationDerives()
    ensures ModelDerive.DeriveTable(ModelDerive.Declaration("OpenaiModel", Table())) == Success(Table())
  {
    TableUnique();
    ModelDerive.DeriveDeclaration("OpenaiModel", Table());
  }

  /** The wire ids the OpenAI API expects. */
  lemma WireIds()
    ensures AsRef(Gpto3) == "o3"
    ensures AsRef(Gpto3Pro) == "o3-pro"
    ensures AsRef(Gpto3Mini) == "o3-mini"
    ensures AsRef(Gpto4Mini) == "o4-mini"
    ensures AsRef(Gpt5) == "gpt-5"
    ensures AsRef(Gpt5Mini) == "gpt-5-mini"
    ensures AsRef(Gpt5Nano) == "gpt-5-nano"
    ensures AsRef(Gpt5Chat) == "gpt-5-chat-latest"
    ensures AsRef(Gpt41) == "gpt-4.1"
    ensures AsRef(Gpt41Mini) == "gpt-4.1-mini"
    ensures AsRef(Gpt41Nano) == "gpt-4.1-nano"
    ensures AsRef(Gpt4o) == "gpt-4o"
    ensures AsRef(Gpt4oMini) == "gpt-4o-mini"
    ensures DisplayModelId(ModelIdOf(Gpt5Chat)) == "GPT-5 Chat"
  {
  }

  /** Parsing any model's wire id gives that model back. */
  lemma TryFromAsRef(m: OpenaiModel)
    ensures TryFrom(AsRef(m)) == Success(m)
  {
    var v := Ordinal(m);
    TableUnique();
    Catalog.TryFromAsRef(Table(), v);
    OrdinalBijective(m);
  }

  /** What `Display` writes parses back to the same model. */
  lemma DisplayParses(m: OpenaiModel)
    ensures TryFrom(Display(m)) == Success(m)
  {
    TryFromAsRef(m);
  }

  /** Every string `try_from` accepts is the wire id of the model it returns. */
  lemma TryFromSound(s: string, m: OpenaiModel)
    requires TryFrom(s) == Success(m)
    ensures AsRef(m) == s
  {
    var v := Catalog.TryFrom(Table(), s).value;
    Catalog.TryFromSound(Table(), s, v);
  }

  /** A string that is no listed id is refused with the message "Invalid model name: <s>". */
  lemma TryFromInvalid(s: string)
    requires forall v :: v in Variants() ==> v.id != s
    ensures TryFrom(s) == Failure(InvalidModelError(s))
    ensures CoreError.Display(TryFrom(s).error) == "Invalid model name: " + s
  {
    Catalog.NotInVariants(Table(), s);
    Catalog.TryFromUnknown(Table(), s);
    assert TryFrom(s) == Failure(InvalidModelError(s));
    CoreError.InvalidModelDisplay(s);
  }

  /** The variant list names all thirteen models with their ids, in declaration order. */
  lemma VariantsComplete(m: OpenaiModel)
    ensures |Variants()| == Count
    ensures Variants()[Ordinal(m)] == ModelIdOf(m)
  {
  }

  lemma SerdeRoundTrip(m: OpenaiModel)
    ensures Deserialize(Serialize(m)) == Success(m)
  {
    var v := Ordinal(m);
    TableUnique();
    Catalog.SerdeRoundTrip(Table(), v);
    OrdinalBijective(m);
  }

  /** Every OpenAI wire id has a second character other than 'e'. */
  lemma SecondCharNotE(m: OpenaiModel)
    ensures |Declared(m).id| >= 2 && Declared(m).id[1] != 'e'
  {
  }

  /** No OpenAI wire id begins with "ge", so no such string is accepted. */
  lemma NoIdStartsWithGe(s: string)
    requires |s| >= 2 && s[..2] == "ge"
    ensures TryFrom(s) == Failure(InvalidModelError(s))
  {
    assert s[1] == 'e' by { assert s[..2][1] == s[1]; }
    forall i | 0 <= i < |Table()| ensures Catalog.Ids(Table())[i] != s {
      var m := FromOrdinal(i);
      TableAt(m);
      SecondCharNotE(m);
    }
    Catalog.TryFromUnknown(Table(), s);
  }
}

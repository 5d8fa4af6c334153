/**
 * What `#[derive(AiModel)]` (macros/src/lib.rs) generates for an enum, stated
 * over the table of `(variant, id, name)` entries it reads from the
 * `#[model(...)]` attributes. A variant is its position in the table.
 */
module Catalog {
  import opened Wrappers
  import opened Strings
  import opened Core
  import opened CoreError

  datatype Entry = Entry(variant: string, id: string, name: string)

  type Table = seq<Entry>

  /** No two variants share an id. */
  predicate UniqueIds(t: Table) {
    forall i, j :: 0 <= i < j < |t| ==> t[i].id != t[j].id
  }

  /** The ids in declaration order. */
  function Ids(t: Table): (ids: seq<string>)
    ensures |ids| == |t| && forall i :: 0 <= i < |t| ==> ids[i] == t[i].id
  {
    if t == [] then [] else [t[0].id] + Ids(t[1..])
  }

  /** The generated `AsRef<str>`: the variant's id. */
  function AsRef(t: Table, v: nat): string
    requires v < |t|
  {
    t[v].id
  }

  /**
   * The string `match` of the generated `TryFrom<&str>` and `visit_str`: the
   * arms are tried in declaration order and the first equal id wins.
   */
  function Lookup(t: Table, s: string): (r: Option<nat>)
    ensures r.Some? ==> r.value < |t| && t[r.value].id == s
    ensures r.Some? ==> forall j :: 0 <= j < r.value ==> t[j].id != s
    ensures r.None? <==> s !in Ids(t)
  {
    if t == [] then None
    else if t[0].id == s then Some(0)
    else match Lookup(t[1..], s)
      case Some(k) => Some(k + 1)
      case None => None
  }

  /** The generated `TryFrom<&str>`: an id gives its variant, anything else an invalid-model error. */
  function TryFrom(t: Table, s: string): Result<nat, Error> {
    match Lookup(t, s)
    case Some(v) => Success(v)
    case None => Failure(InvalidModelError(s))
  }

  /** The generated `model_id`. */
  function ModelIdOf(t: Table, v: nat): (m: ModelId)
    requires v < |t|
    ensures m.id == AsRef(t, v)
  {
    ModelId(t[v].id, t[v].name)
  }

  /** The generated `variants()`: one `ModelId` per variant, in declaration order. */
  function Variants(t: Table): (vs: seq<ModelId>)
    ensures |vs| == |t|
    ensures forall v :: 0 <= v < |t| ==> vs[v] == ModelIdOf(t, v)
  {
    seq(|t|, v requires 0 <= v < |t| => ModelIdOf(t, v))
  }

  /** The generated `Serialize`: the variant is written as its id string. */
  function Serialize(t: Table, v: nat): string
    requires v < |t|
  {
    t[v].id
  }

  /** `serde::de::Error::unknown_variant(value, expected)` */
  datatype DeError = UnknownVariant(value: string, expected: seq<string>)

  /** The generated `Deserialize` visitor. */
  function Deserialize(t: Table, s: string): Result<nat, DeError> {
    match Lookup(t, s)
    case Some(v) => Success(v)
    case None => Failure(UnknownVariant(s, Ids(t)))
  }

  /** The visitor's `expecting` text. */
  function Expecting(t: Table): string {
    "one of: " + Join(Ids(t), ", ")
  }

  /** The `expecting` text names every declared id, the same ids `unknown_variant` reports. */
  lemma ExpectingNamesEveryId(t: Table, v: nat)
    requires v < |t|
    ensures Contains(Expecting(t), AsRef(t, v))
  {
    var ids := Ids(t);
    JoinContainsPart(ids, ", ", v);
    ContainsInContext("one of: ", Join(ids, ", "), "", ids[v]);
    assert "one of: " + Join(ids, ", ") + "" == Expecting(t);
  }

  /** With unique ids, parsing a variant's id gives that variant back. */
  lemma TryFromAsRef(t: Table, v: nat)
    requires UniqueIds(t) && v < |t|
    ensures TryFrom(t, AsRef(t, v)) == Success(v)
  {
    var r := Lookup(t, t[v].id);
    assert t[v].id in Ids(t);
  }

  /** Whatever `TryFrom` accepts is the id of the variant it returns, duplicates or not. */
  lemma TryFromSound(t: Table, s: string, v: nat)
    requires TryFrom(t, s) == Success(v)
    ensures v < |t| && AsRef(t, v) == s
  {
  }

  /** `TryFrom` fails exactly on the strings that are no variant's id, naming the string. */
  lemma TryFromUnknown(t: Table, s: string)
    ensures TryFrom(t, s).Failure? <==> s !in Ids(t)
    ensures s !in Ids(t) ==> TryFrom(t, s) == Failure(InvalidModelError(s))
  {
  }

  /** With unique ids, `AsRef` tells the variants apart. */
  lemma AsRefInjective(t: Table, v: nat, w: nat)
    requires UniqueIds(t) && v < |t| && w < |t|
    requires AsRef(t, v) == AsRef(t, w)
    ensures v == w
  {
  }

  /** Serialising a variant and deserialising the text gives the variant back. */
  lemma SerdeRoundTrip(t: Table, v: nat)
    requires UniqueIds(t) && v < |t|
    ensures Deserialize(t, Serialize(t, v)) == Success(v)
  {
    assert t[v].id in Ids(t);
  }

  /** Deserialising rejects exactly the non-ids, reporting the value and every valid id. */
  lemma DeserializeUnknown(t: Table, s: string)
    ensures Deserialize(t, s).Failure? <==> s !in Ids(t)
    ensures s !in Ids(t) ==> Deserialize(t, s) == Failure(UnknownVariant(s, Ids(t)))
  {
  }

  /** The variant list holds every variant's wire id, and with unique ids no id twice. */
  lemma VariantsAreCatalog(t: Table)
    requires UniqueIds(t)
    ensures forall v :: 0 <= v < |t| ==> Variants(t)[v].id == AsRef(t, v) && Variants(t)[v].name == t[v].name
    ensures forall i, j :: 0 <= i < j < |t| ==> Variants(t)[i].id != Variants(t)[j].id
  {
  }

  /** A string that no entry of the variant list carries as its id is no id of the table. */
  lemma NotInVariants(t: Table, s: string)
    requires forall v :: v in Variants(t) ==> v.id != s
    ensures s !in Ids(t)
  {
    forall i | 0 <= i < |t| ensures Ids(t)[i] != s {
      assert Variants(t)[i] in Variants(t);
    }
  }
}

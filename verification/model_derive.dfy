/**
 * The `#[derive(AiModel)]` macro itself (macros/src/lib.rs): reading the
 * `#[model(id = "...", name = "...")]` attributes of each variant and
 * checking the derive input before any code is generated.
 */
module ModelDerive {
  import opened Wrappers
  import opened Catalog

  /** The value on the right of `key = value`; only a string literal is accepted. */
  datatype Expr = StrLit(value: string) | OtherExpr

  /** One item inside `#[model(...)]`. */
  datatype Meta =
    | NameValue(path: string, value: Expr)   // `key = value`
    | PathOnly(path: string)                  // a bare `key`
    | MetaList(path: string)                  // `key(...)`

  /** The arguments of an attribute, or a syntax error when they are not a comma-separated meta list. */
  datatype AttrArgs = Parsed(metas: seq<Meta>) | Unparsable

  datatype Attribute = Attribute(path: string, args: AttrArgs)

  datatype Variant = Variant(ident: string, attrs: seq<Attribute>)

  datatype DeriveInput =
    | EnumInput(ident: string, variants: seq<Variant>)
    | StructInput(ident: string)
    | UnionInput(ident: string)

  /** The compile errors the macro can report. */
  datatype DeriveError =
    | NotAnEnum
    | InvalidAttributeSyntax
    | IdNotString
    | NameNotString
    | UnsupportedKey(key: string)
    | UnexpectedMeta
    | MissingId
    | MissingName
    | RepeatedId

  function Message(e: DeriveError): string {
    match e
    case NotAnEnum => "AiModel can only be derived for enums"
    case InvalidAttributeSyntax => "Invalid model attribute syntax"
    case IdNotString => "Model id must be a string literal"
    case NameNotString => "Model name must be a string literal"
    case UnsupportedKey(_) => "Only 'id' and 'name' are supported in #[model] attribute"
    case UnexpectedMeta => "Expected #[model(id = \"...\", name = \"...\")]"
    case MissingId => "missing #[model] attribute with id"
    case MissingName => "missing #[model] attribute with name"
    case RepeatedId => "Repeated Id: model id must be unique"
  }

  /** The two mutable locals `model_id` and `model_name` of the extraction loop. */
  datatype Fields = Fields(id: Option<string>, name: Option<string>)

  /** One iteration of the inner loop: a later value for a key replaces an earlier one. */
  function ApplyMeta(f: Fields, m: Meta): Result<Fields, DeriveError> {
    match m
    case NameValue("id", v) =>
      if v.StrLit? then Success(f.(id := Some(v.value))) else Failure(IdNotString)
    case NameValue("name", v) =>
      if v.StrLit? then Success(f.(name := Some(v.value))) else Failure(NameNotString)
    case NameValue(key, _) => Failure(UnsupportedKey(key))
    case _ => Failure(UnexpectedMeta)
  }

  /** The inner loop: metas left to right, stopping at the first error. */
  function ApplyMetas(f: Fields, ms: seq<Meta>): Result<Fields, DeriveError>
    decreases |ms|
  {
    if ms == [] then Success(f)
    else match ApplyMeta(f, ms[0])
      case Failure(e) => Failure(e)
      case Success(g) => ApplyMetas(g, ms[1..])
  }

  /** One iteration of the outer loop: attributes other than `model` are skipped. */
  function ApplyAttribute(f: Fields, a: Attribute): Result<Fields, DeriveError> {
    if a.path != "model" then Success(f)
    else match a.args
      case Unparsable => Failure(InvalidAttributeSyntax)
      case Parsed(ms) => ApplyMetas(f, ms)
  }

  /** The outer loop: attributes in order, stopping at the first error. */
  function ApplyAttributes(f: Fields, attrs: seq<Attribute>): Result<Fields, DeriveError>
    decreases |attrs|
  {
    if attrs == [] then Success(f)
    else match ApplyAttribute(f, attrs[0])
      case Failure(e) => Failure(e)
      case Success(g) => ApplyAttributes(g, attrs[1..])
  }

  /** What `extract_model_attributes` returns: the id, then the name, must have been set. */
  function ExtractedFields(v: Variant): Result<(string, string), DeriveError> {
    match ApplyAttributes(Fields(None, None), v.attrs)
    case Failure(e) => Failure(e)
    case Success(f) =>
      if f.id.None? then Failure(MissingId)
      else if f.name.None? then Failure(MissingName)
      else Success((f.id.value, f.name.value))
  }

  /** `extract_model_attributes`: two nested loops over the attributes and their metas. */
  method ExtractModelAttributes(v: Variant) returns (r: Result<(string, string), DeriveError>)
    ensures r == ExtractedFields(v)
  {
    var modelId: Option<string> := None;
    var modelName: Option<string> := None;
    var i := 0;
    while i < |v.attrs|
      invariant 0 <= i <= |v.attrs|
      invariant ApplyAttributes(Fields(None, None), v.attrs) == ApplyAttributes(Fields(modelId, modelName), v.attrs[i..])
    {
      var attr := v.attrs[i];
      assert v.attrs[i..][0] == attr && v.attrs[i..][1..] == v.attrs[i + 1..];
      if attr.path != "model" {
        i := i + 1;
        continue;
      }
      if attr.args.Unparsable? {
        return Failure(InvalidAttributeSyntax);
      }
      var metas := attr.args.metas;
      ghost var before := Fields(modelId, modelName);
      var j := 0;
      while j < |metas|
        invariant 0 <= j <= |metas|
        invariant ApplyMetas(before, metas) == ApplyMetas(Fields(modelId, modelName), metas[j..])
        decreases |metas| - j
      {
        assert metas[j..][0] == metas[j] && metas[j..][1..] == metas[j + 1..];
        var meta := metas[j];
        if !meta.NameValue? {
          return Failure(UnexpectedMeta);
        }
        if meta.path == "id" {
          if !meta.value.StrLit? {
            return Failure(IdNotString);
          }
          modelId := Some(meta.value.value);
        } else if meta.path == "name" {
          if !meta.value.StrLit? {
            return Failure(NameNotString);
          }
          modelName := Some(meta.value.value);
        } else {
          return Failure(UnsupportedKey(meta.path));
        }
        j := j + 1;
      }
      i := i + 1;
    }
    if modelId.None? {
      return Failure(MissingId);
    }
    if modelName.None? {
      return Failure(MissingName);
    }
    r := Success((modelId.value, modelName.value));
  }

  /** The `map(...).collect::<syn::Result<Vec<_>>>()?` over the variants: the first failure wins. */
  function CollectEntries(vs: seq<Variant>): (r: Result<Table, DeriveError>)
    ensures r.Success? ==> |r.value| == |vs|
    ensures r.Success? ==> forall i :: 0 <= i < |vs| ==>
      r.value[i].variant == vs[i].ident && ExtractedFields(vs[i]) == Success((r.value[i].id, r.value[i].name))
    ensures r.Success? <==> forall i :: 0 <= i < |vs| ==> ExtractedFields(vs[i]).Success?
  {
    if vs == [] then Success([])
    else match ExtractedFields(vs[0])
      case Failure(e) => Failure(e)
      case Success(p) =>
        match CollectEntries(vs[1..])
        case Failure(e) => Failure(e)
        case Success(rest) => Success([Entry(vs[0].ident, p.0, p.1)] + rest)
  }

  /** The `HashSet` of ids built for the uniqueness check. */
  function IdSet(t: Table): set<string> {
    if t == [] then {} else {t[0].id} + IdSet(t[1..])
  }

  lemma {:induction false} IdSetMembers(t: Table)
    ensures forall s :: s in IdSet(t) <==> exists i :: 0 <= i < |t| && t[i].id == s
  {
    if t != [] {
      IdSetMembers(t[1..]);
      forall s | s in IdSet(t) ensures exists i :: 0 <= i < |t| && t[i].id == s {
        if s != t[0].id {
          assert s in IdSet(t[1..]);
          var k :| 0 <= k < |t[1..]| && t[1..][k].id == s;
          assert t[k + 1].id == s;
        }
      }
      forall s | exists i :: 0 <= i < |t| && t[i].id == s ensures s in IdSet(t) {
        var i :| 0 <= i < |t| && t[i].id == s;
        if i > 0 {
          assert t[1..][i - 1].id == s;
        }
      }
    }
  }

  /** The set has as many ids as there are variants exactly when no id repeats. */
  lemma {:induction false} IdSetSize(t: Table)
    ensures |IdSet(t)| <= |t|
    ensures |IdSet(t)| == |t| <==> UniqueIds(t)
  {
    if t != [] {
      IdSetSize(t[1..]);
      IdSetMembers(t[1..]);
      if t[0].id in IdSet(t[1..]) {
        var k :| 0 <= k < |t[1..]| && t[1..][k].id == t[0].id;
        assert t[0].id == t[k + 1].id;
        assert !UniqueIds(t);
      } else {
        assert |IdSet(t)| == 1 + |IdSet(t[1..])|;
        if UniqueIds(t[1..]) {
          forall i, j | 0 <= i < j < |t| ensures t[i].id != t[j].id {
            if i == 0 {
              assert t[j].id == t[1..][j - 1].id;
            } else {
              assert t[i].id == t[1..][i - 1].id && t[j].id == t[1..][j - 1].id;
            }
          }
        } else {
          var i, j :| 0 <= i < j < |t[1..]| && t[1..][i].id == t[1..][j].id;
          assert t[i + 1].id == t[j + 1].id;
        }
      }
    }
  }

  /** `ai_model_derive_impl` up to code generation: the table the generated impls are built from. */
  function DeriveTable(input: DeriveInput): Result<Table, DeriveError> {
    if !input.EnumInput? then Failure(NotAnEnum)
    else match CollectEntries(input.variants)
      case Failure(e) => Failure(e)
      case Success(t) => if |IdSet(t)| != |t| then Failure(RepeatedId) else Success(t)
  }

  /**
   * The derive accepts exactly the enums whose every variant carries an id and a
   * name and whose ids are all different; the table then lists the variants in
   * declaration order.
   */
  lemma DeriveTableSpec(input: DeriveInput)
    ensures !input.EnumInput? ==> DeriveTable(input) == Failure(NotAnEnum)
    ensures DeriveTable(input).Success? <==>
      && input.EnumInput?
      && CollectEntries(input.variants).Success?
      && UniqueIds(CollectEntries(input.variants).value)
    ensures DeriveTable(input).Success? ==>
      var t := DeriveTable(input).value;
      && |t| == |input.variants|
      && (forall i :: 0 <= i < |t| ==> t[i].variant == input.variants[i].ident)
  {
    if input.EnumInput? && CollectEntries(input.variants).Success? {
      IdSetSize(CollectEntries(input.variants).value);
    }
  }

  /** A variant carrying one `#[model(id = id, name = name)]` attribute. */
  function Annotated(e: Entry): Variant {
    Variant(e.variant, [Attribute("model", Parsed([NameValue("id", StrLit(e.id)), NameValue("name", StrLit(e.name))]))])
  }

  /** The enum declaration whose `#[model]` attributes spell out the table. */
  function Declaration(ident: string, t: Table): (input: DeriveInput)
    ensures input.EnumInput? && |input.variants| == |t|
    ensures forall i :: 0 <= i < |t| ==> input.variants[i] == Annotated(t[i])
  {
    EnumInput(ident, seq(|t|, i requires 0 <= i < |t| => Annotated(t[i])))
  }

  /** A well-annotated enum derives exactly its own table, unless two ids clash. */
  lemma DeriveDeclaration(ident: string, t: Table)
    ensures DeriveTable(Declaration(ident, t)) == if UniqueIds(t) then Success(t) else Failure(RepeatedId)
  {
    var vs := Declaration(ident, t).variants;
    forall i | 0 <= i < |vs| ensures ExtractedFields(vs[i]) == Success((t[i].id, t[i].name)) {
      var ms := [NameValue("id", StrLit(t[i].id)), NameValue("name", StrLit(t[i].name))];
      var f1 := Fields(Some(t[i].id), None);
      var f2 := Fields(Some(t[i].id), Some(t[i].name));
      assert ApplyMeta(Fields(None, None), ms[0]) == Success(f1);
      assert ApplyMeta(f1, ms[1]) == Success(f2);
      assert ms[1..][1..] == [];
      assert ApplyMetas(f1, ms[1..]) == Success(f2);
      assert ApplyMetas(Fields(None, None), ms) == Success(f2);
      var attrs := vs[i].attrs;
      assert attrs == [Attribute("model", Parsed(ms))];
      assert ApplyAttribute(Fields(None, None), attrs[0]) == Success(f2);
      assert attrs[1..] == [];
      assert ApplyAttributes(f2, attrs[1..]) == Success(f2);
      assert ApplyAttributes(Fields(None, None), attrs) == Success(f2);
    }
    var c := CollectEntries(vs);
    assert c.Success?;
    assert c.value == t;
    IdSetSize(t);
  }

  /** Attributes that are not `model` attributes change nothing. */
  lemma {:induction false} ApplyAttributesSkipsForeign(f: Fields, before: seq<Attribute>, other: Attribute, after: seq<Attribute>)
    requires other.path != "model"
    ensures ApplyAttributes(f, before + [other] + after) == ApplyAttributes(f, before + after)
    decreases |before|
  {
    if before == [] {
      assert ([other] + after)[1..] == after;
      assert before + [other] + after == [other] + after;
      assert before + after == after;
    } else {
      assert (before + [other] + after)[1..] == before[1..] + [other] + after;
      assert (before + after)[1..] == before[1..] + after;
      match ApplyAttribute(f, before[0])
      case Failure(_) =>
      case Success(g) => ApplyAttributesSkipsForeign(g, before[1..], other, after);
    }
  }

  /** Extraction ignores any attribute whose path is not `model`. */
  lemma ExtractIgnoresForeignAttribute(ident: string, before: seq<Attribute>, other: Attribute, after: seq<Attribute>)
    requires other.path != "model"
    ensures ExtractedFields(Variant(ident, before + [other] + after)) == ExtractedFields(Variant(ident, before + after))
  {
    ApplyAttributesSkipsForeign(Fields(None, None), before, other, after);
  }

  /** A later `id` or `name` replaces an earlier one. */
  lemma LaterValueWins(f: Fields, key: string, first: string, second: string, rest: seq<Meta>)
    requires key == "id" || key == "name"
    ensures ApplyMetas(f, [NameValue(key, StrLit(first)), NameValue(key, StrLit(second))] + rest)
         == ApplyMetas(f, [NameValue(key, StrLit(second))] + rest)
  {
    var ms := [NameValue(key, StrLit(first)), NameValue(key, StrLit(second))] + rest;
    assert ms[1..] == [NameValue(key, StrLit(second))] + rest;
  }

  /** A successful extraction means the variant's `model` attributes named both an id and a name. */
  lemma {:induction false} ExtractNeedsBothKeys(v: Variant)
    requires ExtractedFields(v).Success?
    ensures HasKey(v.attrs, "id") && HasKey(v.attrs, "name")
  {
    KeySetOnlyByAttribute(Fields(None, None), v.attrs);
  }

  /** Some `model` attribute of the list holds a `key = ...` item. */
  predicate HasKey(attrs: seq<Attribute>, key: string) {
    exists i, j :: 0 <= i < |attrs| && attrs[i].path == "model" && attrs[i].args.Parsed?
      && 0 <= j < |attrs[i].args.metas| && attrs[i].args.metas[j].NameValue? && attrs[i].args.metas[j].path == key
  }

  predicate MetasHaveKey(ms: seq<Meta>, key: string) {
    exists j :: 0 <= j < |ms| && ms[j].NameValue? && ms[j].path == key
  }

  lemma {:induction false} KeySetOnlyByMeta(f: Fields, ms: seq<Meta>)
    requires ApplyMetas(f, ms).Success?
    ensures f.id.None? && ApplyMetas(f, ms).value.id.Some? ==> MetasHaveKey(ms, "id")
    ensures f.name.None? && ApplyMetas(f, ms).value.name.Some? ==> MetasHaveKey(ms, "name")
    decreases |ms|
  {
    if ms != [] {
      var g := ApplyMeta(f, ms[0]).value;
      KeySetOnlyByMeta(g, ms[1..]);
      if MetasHaveKey(ms[1..], "id") {
        var j :| 0 <= j < |ms[1..]| && ms[1..][j].NameValue? && ms[1..][j].path == "id";
        assert ms[j + 1] == ms[1..][j];
      }
      if MetasHaveKey(ms[1..], "name") {
        var j :| 0 <= j < |ms[1..]| && ms[1..][j].NameValue? && ms[1..][j].path == "name";
        assert ms[j + 1] == ms[1..][j];
      }
    }
  }

  lemma {:induction false} KeySetOnlyByAttribute(f: Fields, attrs: seq<Attribute>)
    requires ApplyAttributes(f, attrs).Success?
    ensures f.id.None? && ApplyAttributes(f, attrs).value.id.Some? ==> HasKey(attrs, "id")
    ensures f.name.None? && ApplyAttributes(f, attrs).value.name.Some? ==> HasKey(attrs, "name")
    decreases |attrs|
  {
    if attrs != [] {
      var a := attrs[0];
      var g := ApplyAttribute(f, a).value;
      KeySetOnlyByAttribute(g, attrs[1..]);
      forall key | key == "id" || key == "name"
        ensures HasKey(attrs[1..], key) ==> HasKey(attrs, key)
      {
        if HasKey(attrs[1..], key) {
          var i, j :| 0 <= i < |attrs[1..]| && attrs[1..][i].path == "model" && attrs[1..][i].args.Parsed?
            && 0 <= j < |attrs[1..][i].args.metas| && attrs[1..][i].args.metas[j].NameValue? && attrs[1..][i].args.metas[j].path == key;
          assert attrs[i + 1] == attrs[1..][i];
        }
      }
      if a.path == "model" {
        KeySetOnlyByMeta(f, a.args.metas);
        forall key | key == "id" || key == "name"
          ensures MetasHaveKey(a.args.metas, key) ==> HasKey(attrs, key)
        {
          if MetasHaveKey(a.args.metas, key) {
            var j :| 0 <= j < |a.args.metas| && a.args.metas[j].NameValue? && a.args.metas[j].path == key;
            assert attrs[0] == a;
          }
        }
      }
    }
  }

  /** macros/tests/compile_fail/missing_id.rs: a variant with only a name is refused for its missing id. */
  lemma MissingIdRejected()
    ensures ExtractedFields(Variant("Variant", [Attribute("model", Parsed([NameValue("name", StrLit("Variant"))]))])) == Failure(MissingId)
  {
  }

  /** macros/tests/compile_fail/missing_name.rs: a variant with only an id is refused for its missing name. */
  lemma MissingNameRejected()
    ensures ExtractedFields(Variant("Variant", [Attribute("model", Parsed([NameValue("id", StrLit("variant"))]))])) == Failure(MissingName)
  {
  }

  /** Any key other than `id` or `name` is refused, naming the key. */
  lemma UnsupportedKeyRejected(f: Fields, key: string, value: Expr, rest: seq<Meta>)
    requires key != "id" && key != "name"
    ensures ApplyMetas(f, [NameValue(key, value)] + rest) == Failure(UnsupportedKey(key))
  {
  }
}

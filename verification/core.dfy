/**
 * The value types of `latchlm_core` (core/src/lib.rs): model identifiers with
 * their derived ordering and display, requests, responses and token usage.
 */
module Core {
  import opened Wrappers

  /** A token count, a `u64`. */
  type u64 = x: int | 0 <= x < 0x1_0000_0000_0000_0000

  /** A technical id used on the wire and a human-readable name. */
  datatype ModelId = ModelId(id: string, name: string)

  /** `std::cmp::Ordering` */
  datatype Ordering = Less | Equal | Greater {
    function Reverse(): Ordering {
      match this
      case Less => Greater
      case Equal => Equal
      case Greater => Less
    }
  }

  /** `str` ordering: character by character, a proper prefix first. */
  function CompareStrings(a: string, b: string): Ordering {
    if a == [] then (if b == [] then Equal else Less)
    else if b == [] then Greater
    else if a[0] < b[0] then Less
    else if a[0] > b[0] then Greater
    else CompareStrings(a[1..], b[1..])
  }

  /** The derived `Ord` of `ModelId`: by `id`, then by `name`. */
  function CompareModelIds(x: ModelId, y: ModelId): Ordering {
    match CompareStrings(x.id, y.id)
    case Equal => CompareStrings(x.name, y.name)
    case other => other
  }

  /** `Display` of a `ModelId`. */
  function DisplayModelId(m: ModelId): string {
    m.name
  }

  lemma {:induction false} CompareStringsEqual(a: string, b: string)
    ensures CompareStrings(a, b) == Equal <==> a == b
  {
    if a != [] && b != [] && a[0] == b[0] {
      CompareStringsEqual(a[1..], b[1..]);
      if a[1..] == b[1..] {
        assert a == [a[0]] + a[1..] && b == [b[0]] + b[1..];
      }
    }
  }

  lemma {:induction false} CompareStringsReverse(a: string, b: string)
    ensures CompareStrings(b, a) == CompareStrings(a, b).Reverse()
  {
    if a != [] && b != [] && a[0] == b[0] {
      CompareStringsReverse(a[1..], b[1..]);
    }
  }

  lemma {:induction false} CompareStringsTransitive(a: string, b: string, c: string)
    requires CompareStrings(a, b) == Less && CompareStrings(b, c) == Less
    ensures CompareStrings(a, c) == Less
  {
    if a != [] && b != [] && c != [] && a[0] == b[0] == c[0] {
      CompareStringsTransitive(a[1..], b[1..], c[1..]);
    }
  }

  /** The derived equality and the derived ordering agree: `Equal` exactly for equal ids. */
  lemma CompareModelIdsEqual(x: ModelId, y: ModelId)
    ensures CompareModelIds(x, y) == Equal <==> x == y
  {
    CompareStringsEqual(x.id, y.id);
    CompareStringsEqual(x.name, y.name);
  }

  /** Swapping the operands reverses the answer. */
  lemma CompareModelIdsReverse(x: ModelId, y: ModelId)
    ensures CompareModelIds(y, x) == CompareModelIds(x, y).Reverse()
  {
    CompareStringsReverse(x.id, y.id);
    CompareStringsReverse(x.name, y.name);
  }

  /** The ordering is transitive, so `ModelId` lists sort consistently. */
  lemma CompareModelIdsTransitive(x: ModelId, y: ModelId, z: ModelId)
    requires CompareModelIds(x, y) == Less && CompareModelIds(y, z) == Less
    ensures CompareModelIds(x, z) == Less
  {
    CompareStringsEqual(x.id, y.id);
    CompareStringsEqual(y.id, z.id);
    CompareStringsEqual(x.id, z.id);
    if CompareStrings(x.id, y.id) == Less && CompareStrings(y.id, z.id) == Less {
      CompareStringsTransitive(x.id, y.id, z.id);
    } else if CompareStrings(x.id, y.id) == Less {
      assert y.id == z.id;
    } else if CompareStrings(y.id, z.id) == Less {
      assert x.id == y.id;
    } else {
      assert x.id == y.id == z.id;
      CompareStringsTransitive(x.name, y.name, z.name);
    }
  }

  /** The id decides the order whenever the ids differ; the name only breaks ties. */
  lemma CompareModelIdsIdFirst(x: ModelId, y: ModelId)
    requires x.id != y.id
    ensures CompareModelIds(x, y) == CompareStrings(x.id, y.id) != Equal
  {
    CompareStringsEqual(x.id, y.id);
  }

  /** Displaying a `ModelId` shows its name and nothing of its id. */
  lemma DisplayModelIdIgnoresId(x: ModelId, y: ModelId)
    requires x.name == y.name
    ensures DisplayModelId(x) == DisplayModelId(y) == x.name
  {
  }

  /** The prompt sent to a model. */
  datatype AiRequest = AiRequest(text: string)

  /** Token counts; each may be absent because not every reply reports it. */
  datatype TokenUsage = TokenUsage(inputTokens: Option<u64>, outputTokens: Option<u64>, totalTokens: Option<u64>)

  /** The derived `Default` of `TokenUsage`. */
  function DefaultTokenUsage(): (u: TokenUsage)
    ensures u.inputTokens.None? && u.outputTokens.None? && u.totalTokens.None?
  {
    TokenUsage(None, None, None)
  }

  /** The provider-independent reply. */
  datatype AiResponse = AiResponse(text: string, tokenUsage: TokenUsage)
}

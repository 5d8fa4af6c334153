/**
 * The crate-wide error type of `latchlm_core` (core/src/error.rs): a closed
 * set of five kinds, each with the text its `Display` prints.
 */
module CoreError {
  import opened Strings

  /** An HTTP status code, a `u16`. */
  type u16 = x: int | 0 <= x < 0x1_0000

  datatype Error =
    | RequestError(detail: string)                 // wraps a transport error; detail is its Display
    | ApiError(status: u16, message: string)       // a non-success HTTP status and the body text
    | ParseError(detail: string)                   // wraps a JSON decoding error
    | InvalidModelError(model: string)             // the wire id of a model that was refused
    | ProviderError(provider: string, error: string)

  /** The `#[error(...)]` formats. */
  function Display(e: Error): string {
    match e
    case RequestError(d) => "Request failed: " + d
    case ApiError(status, message) => "Api error: " + Decimal(status) + " - " + message + " "
    case ParseError(_) => "Failed to parse the response"
    case InvalidModelError(m) => "Invalid model name: " + m
    case ProviderError(p, err) => "Provider settings error: " + p + " : " + err
  }

  /** The first character of each format differs, so the text alone tells the kind of error. */
  lemma DisplayDeterminesKind(e1: Error, e2: Error)
    requires Display(e1) == Display(e2)
    ensures e1.RequestError? == e2.RequestError?
    ensures e1.ApiError? == e2.ApiError?
    ensures e1.ParseError? == e2.ParseError?
    ensures e1.InvalidModelError? == e2.InvalidModelError?
    ensures e1.ProviderError? == e2.ProviderError?
  {
    assert Display(e1)[0] == Display(e2)[0];
  }

  /** The parse-error text is fixed: the inner decoding failure never shows. */
  lemma ParseErrorDisplayIgnoresDetail(d1: string, d2: string)
    ensures Display(ParseError(d1)) == Display(ParseError(d2)) == "Failed to parse the response"
  {
  }

  /** The text of an invalid-model error is the fixed prefix followed by the model name. */
  lemma InvalidModelDisplay(model: string)
    ensures Display(InvalidModelError(model)) == "Invalid model name: " + model
  {
  }

  /** The text of a provider error names the provider, then the detail. */
  lemma ProviderErrorDisplay(provider: string, error: string)
    ensures Display(ProviderError(provider, error)) == "Provider settings error: " + provider + " : " + error
  {
  }

  /** An invalid-model message names the refused wire id, and only it. */
  lemma InvalidModelDisplayInjective(m1: string, m2: string)
    requires Display(InvalidModelError(m1)) == Display(InvalidModelError(m2))
    ensures m1 == m2
  {
    var p := "Invalid model name: ";
    assert m1 == Display(InvalidModelError(m1))[|p|..];
    assert m2 == Display(InvalidModelError(m2))[|p|..];
  }

  /**
   * An API-error message, trailing space included, gives back both the status
   * and the body text: the status digits end at the first space.
   */
  lemma ApiErrorDisplayInjective(s1: u16, m1: string, s2: u16, m2: string)
    requires Display(ApiError(s1, m1)) == Display(ApiError(s2, m2))
    ensures s1 == s2 && m1 == m2
  {
    var p := "Api error: ";
    var d1, d2 := Decimal(s1), Decimal(s2);
    var t1 := Display(ApiError(s1, m1));
    var r1 := d1 + " - " + m1 + " ";
    var r2 := d2 + " - " + m2 + " ";
    assert t1 == p + r1;
    assert r1 == t1[|p|..] == r2;
    assert r1 == d1 + (" - " + m1 + " ");
    assert r2 == d2 + (" - " + m2 + " ");
    FirstSpace(d1, " - " + m1 + " ");
    FirstSpace(d2, " - " + m2 + " ");
    assert d1 == d2;
    DecimalInjective(s1, s2);
    assert m1 == r1[|d1| + 3..|r1| - 1];
    assert m2 == r2[|d2| + 3..|r2| - 1];
  }

  /** Digits followed by a text starting with a space: the digits are the part before the first space. */
  lemma FirstSpace(digits: string, rest: string)
    requires forall i :: 0 <= i < |digits| ==> IsDigit(digits[i])
    requires |rest| > 0 && rest[0] == ' '
    ensures SpaceFree(digits + rest) == digits
  {
    if digits != [] {
      assert (digits + rest)[1..] == digits[1..] + rest;
      FirstSpace(digits[1..], rest);
    } else {
      assert digits + rest == rest;
    }
  }

  /** The longest prefix of `s` without a space. */
  function SpaceFree(s: string): string {
    if s == [] || s[0] == ' ' then "" else [s[0]] + SpaceFree(s[1..])
  }

  /**
   * A provider-error message does not identify its fields: a ` : ` inside the
   * provider name reads the same as the separator.
   */
  lemma ProviderErrorDisplayAmbiguous()
    ensures Display(ProviderError("A : B", "C")) == Display(ProviderError("A", "B : C"))
  {
    assert "A : B" + " : " + "C" == "A" + " : " + "B : C";
  }
}

/**
 * The body of a Gemini `generateContent` reply (gemini/src/response.rs) and
 * its conversion to the provider-neutral `AiResponse`.
 */
module GeminiResponses {
  import opened Wrappers
  import opened Strings
  import opened Core

  /** A signed 64-bit integer. */
  type i64 = x: int | -0x8000_0000_0000_0000 <= x < 0x8000_0000_0000_0000

  datatype Text = Text(text: string)

  datatype Content = Content(parts: seq<Text>)

  datatype Candidate = Candidate(content: Content, finishReason: string, index: Option<u64>, avgLogProbs: Option<i64>)

  /** `PromptTokensDetails` and `CandidatesTokensDetails` have the same shape. */
  datatype TokensDetails = TokensDetails(modality: string, tokenCount: u64)

  datatype UsageMetadata = UsageMetadata(
    promptTokenCount: u64,
    candidatesTokenCount: u64,
    totalTokenCount: u64,
    promptTokensDetails: seq<TokensDetails>,
    thoughtsTokenCount: Option<u64>,
    candidatesTokensDetails: Option<seq<TokensDetails>>)

  datatype GeminiResponse = GeminiResponse(candidates: seq<Candidate>, usageMetadata: UsageMetadata, modelVersion: string, responseId: string)

  /** The derived `Default` values. */
  const DefaultCandidate := Candidate(Content([]), "", None, None)
  const DefaultUsage := UsageMetadata(0, 0, 0, [], None, None)
  const DefaultResponse := GeminiResponse([], DefaultUsage, "", "")

  function PartTexts(c: Candidate): (ts: seq<string>)
    ensures |ts| == |c.content.parts|
    ensures forall i :: 0 <= i < |ts| ==> ts[i] == c.content.parts[i].text
  {
    seq(|c.content.parts|, i requires 0 <= i < |c.content.parts| => c.content.parts[i].text)
  }

  /** The `flat_map`: every part's text, candidate by candidate and part by part. */
  function AllTexts(cs: seq<Candidate>): seq<string> {
    if cs == [] then [] else PartTexts(cs[0]) + AllTexts(cs[1..])
  }

  /** `extract_text`: the texts collected with no separator. */
  function ExtractText(r: GeminiResponse): string {
    Concat(AllTexts(r.candidates))
  }

  /** `From<GeminiResponse> for AiResponse`. */
  function ToAiResponse(r: GeminiResponse): (a: AiResponse)
    ensures a.text == ExtractText(r)
    ensures a.tokenUsage.inputTokens == Some(r.usageMetadata.promptTokenCount)
    ensures a.tokenUsage.outputTokens == Some(r.usageMetadata.candidatesTokenCount)
    ensures a.tokenUsage.totalTokens == Some(r.usageMetadata.totalTokenCount)
  {
    AiResponse(
      ExtractText(r),
      TokenUsage(
        Some(r.usageMetadata.promptTokenCount),
        Some(r.usageMetadata.candidatesTokenCount),
        Some(r.usageMetadata.totalTokenCount)))
  }

  lemma {:induction false} AllTextsAppend(a: seq<Candidate>, b: seq<Candidate>)
    ensures AllTexts(a + b) == AllTexts(a) + AllTexts(b)
  {
    if a == [] {
      assert a + b == b;
    } else {
      assert (a + b)[1..] == a[1..] + b;
      AllTextsAppend(a[1..], b);
    }
  }

  /**
   * The text of a reply is the text of its first candidates followed by the
   * text of the rest: candidates keep their order and nothing separates them.
   */
  lemma ExtractTextAppend(r: GeminiResponse, a: seq<Candidate>, b: seq<Candidate>)
    requires r.candidates == a + b
    ensures ExtractText(r) == ExtractText(r.(candidates := a)) + ExtractText(r.(candidates := b))
  {
    AllTextsAppend(a, b);
    ConcatAppend(AllTexts(a), AllTexts(b));
  }

  /** One candidate contributes exactly its parts' texts, glued together in part order. */
  lemma ExtractTextSingle(r: GeminiResponse, c: Candidate)
    requires r.candidates == [c]
    ensures ExtractText(r) == Concat(PartTexts(c))
  {
    assert [c][1..] == [];
    assert AllTexts([c]) == PartTexts(c) + AllTexts([]);
    assert PartTexts(c) + [] == PartTexts(c);
  }

  /** The number of characters is the total length of all part texts. */
  lemma {:induction false} ExtractTextLength(cs: seq<Candidate>)
    ensures |Concat(AllTexts(cs))| == TotalLength(AllTexts(cs))
    ensures |AllTexts(cs)| == PartCount(cs)
  {
    ConcatLength(AllTexts(cs));
    if cs != [] {
      ExtractTextLength(cs[1..]);
    }
  }

  function PartCount(cs: seq<Candidate>): nat {
    if cs == [] then 0 else |cs[0].content.parts| + PartCount(cs[1..])
  }

  /** Without any part, whether for lack of candidates or of parts, the text is empty. */
  lemma {:induction false} ExtractTextNoParts(cs: seq<Candidate>)
    requires forall i :: 0 <= i < |cs| ==> cs[i].content.parts == []
    ensures Concat(AllTexts(cs)) == ""
    ensures AllTexts(cs) == []
  {
    if cs != [] {
      ExtractTextNoParts(cs[1..]);
    }
  }

  /** gemini/src/response.rs, `test_extract_text`. */
  lemma ExtractTextExample()
    ensures ExtractText(DefaultResponse.(candidates := [
      DefaultCandidate.(content := Content([Text("First part. "), Text("Second part.")])),
      Candidate(Content([Text("Another candidate.")]), "", Some(0), None)
    ])) == "First part. Second part.Another candidate."
  {
    var c1 := DefaultCandidate.(content := Content([Text("First part. "), Text("Second part.")]));
    var c2 := Candidate(Content([Text("Another candidate.")]), "", Some(0), None);
    var r := DefaultResponse.(candidates := [c1, c2]);
    assert r.candidates == [c1] + [c2];
    ExtractTextAppend(r, [c1], [c2]);
    ExtractTextSingle(r.(candidates := [c1]), c1);
    ExtractTextSingle(r.(candidates := [c2]), c2);
    assert PartTexts(c1) == ["First part. ", "Second part."];
    assert PartTexts(c2) == ["Another candidate."];
    ConcatPair("First part. ", "Second part.");
    ConcatSingle("Another candidate.");
    assert ExtractText(r) == ("First part. " + "Second part.") + "Another candidate.";
    ExampleJoin();
  }

  lemma ExampleJoin()
    ensures ("First part. " + "Second part.") + "Another candidate." == "First part. Second part.Another candidate."
  {
  }

  /** The default reply and a reply whose one candidate has no parts both give "". */
  lemma ExtractTextEmptyExamples()
    ensures ExtractText(DefaultResponse) == ""
    ensures ExtractText(DefaultResponse.(candidates := [DefaultCandidate])) == ""
  {
    ExtractTextNoParts([DefaultCandidate]);
  }

  /**
   * The usage the conversion reports depends on the three counts alone: the
   * thought count, the per-modality details, the model version and the
   * response id never reach the `AiResponse`.
   */
  lemma ConversionIgnoresDetails(r1: GeminiResponse, r2: GeminiResponse)
    requires r1.candidates == r2.candidates
    requires r1.usageMetadata.promptTokenCount == r2.usageMetadata.promptTokenCount
    requires r1.usageMetadata.candidatesTokenCount == r2.usageMetadata.candidatesTokenCount
    requires r1.usageMetadata.totalTokenCount == r2.usageMetadata.totalTokenCount
    ensures ToAiResponse(r1) == ToAiResponse(r2)
  {
  }
}

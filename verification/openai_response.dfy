/**
 * The body of an OpenAI Responses API reply (openai/src/response.rs) and its
 * conversion to the provider-neutral `AiResponse`.
 */
module OpenaiResponses {
  import opened Wrappers
  import opened Strings
  import opened Core
  import opened Json

  type u32 = x: int | 0 <= x < 0x1_0000_0000

  datatype Content = Content(kind: string, text: string, annotations: seq<string>, logprobs: Option<seq<Json>>)

  /** The untagged `Output` enum: a message with content items, or a reasoning summary. */
  datatype Output =
    | ContentOutput(kind: string, id: string, status: Option<string>, role: Option<string>, content: seq<Content>)
    | SummaryOutput(id: string, summary: seq<Json>, kind: string)

  datatype Reasoning = Reasoning(effort: Option<string>, summary: Option<string>)
  datatype Format = Format(kind: string)
  datatype TextConfig = TextConfig(format: Format, verbosity: Option<string>)
  datatype InputTokensDetails = InputTokensDetails(cachedTokens: u64)
  datatype OutputTokensDetails = OutputTokensDetails(reasoningTokens: u64)

  datatype Usage = Usage(
    inputTokens: u64,
    inputTokensDetails: InputTokensDetails,
    outputTokens: u64,
    outputTokensDetails: OutputTokensDetails,
    totalTokens: u64)

  /** `OpenaiResponse` without its two `f32` fields, `temperature` and `top_p`. */
  datatype OpenaiResponse = OpenaiResponse(
    id: string,
    object: string,
    createdAt: u32,
    status: string,
    background: Option<bool>,
    error: Option<string>,
    incompleteDetails: Option<string>,
    instructions: Option<string>,
    maxOutputTokens: Option<u64>,
    model: string,
    output: seq<Output>,
    parallelToolCalls: bool,
    previousResponseId: Option<string>,
    promptCacheKey: Option<string>,
    reasoning: Reasoning,
    safetyIdentifier: Option<string>,
    serviceTier: Option<string>,
    store: bool,
    text: TextConfig,
    toolChoice: string,
    tools: seq<string>,
    topLogprobe: Option<u64>,
    truncation: string,
    usage: Usage,
    user: Option<string>,
    metadata: Json)

  /** The hand-written `Default for Output`: an empty content message. */
  function DefaultOutput(): (o: Output)
    ensures o.ContentOutput? && o.content == []
  {
    ContentOutput("", "", None, None, [])
  }

  const DefaultContent := Content("", "", [], None)
  const DefaultUsage := Usage(0, InputTokensDetails(0), 0, OutputTokensDetails(0), 0)

  /** The derived `Default for OpenaiResponse`. */
  const DefaultResponse := OpenaiResponse(
    "", "", 0, "", None, None, None, None, None, "", [], false, None, None,
    Reasoning(None, None), None, None, false, TextConfig(Format(""), None), "", [], None, "",
    DefaultUsage, None, Null)

  /** The texts one output contributes: its content items' texts, or none for a summary. */
  function OutputTexts(o: Output): (ts: seq<string>)
    ensures o.SummaryOutput? ==> ts == []
    ensures o.ContentOutput? ==> |ts| == |o.content| && forall i :: 0 <= i < |ts| ==> ts[i] == o.content[i].text
  {
    match o
    case ContentOutput(_, _, _, _, contents) => seq(|contents|, i requires 0 <= i < |contents| => contents[i].text)
    case SummaryOutput(_, _, _) => []
  }

  /** The `flat_map` over the outputs. */
  function AllTexts(os: seq<Output>): seq<string> {
    if os == [] then [] else OutputTexts(os[0]) + AllTexts(os[1..])
  }

  /** `extract_text`: all texts joined by single spaces. */
  function ExtractText(r: OpenaiResponse): string {
    Join(AllTexts(r.output), " ")
  }

  /** `From<OpenaiResponse> for AiResponse`. */
  function ToAiResponse(r: OpenaiResponse): (a: AiResponse)
    ensures a.text == ExtractText(r)
    ensures a.tokenUsage.inputTokens == Some(r.usage.inputTokens)
    ensures a.tokenUsage.outputTokens == Some(r.usage.outputTokens)
    ensures a.tokenUsage.totalTokens == Some(r.usage.totalTokens)
  {
    AiResponse(ExtractText(r), TokenUsage(Some(r.usage.inputTokens), Some(r.usage.outputTokens), Some(r.usage.totalTokens)))
  }

  lemma {:induction false} AllTextsAppend(a: seq<Output>, b: seq<Output>)
    ensures AllTexts(a + b) == AllTexts(a) + AllTexts(b)
  {
    if a == [] {
      assert a + b == b;
    } else {
      assert (a + b)[1..] == a[1..] + b;
      AllTextsAppend(a[1..], b);
    }
  }

  /** A summary output leaves no trace in the text, not even an extra space. */
  lemma SummaryContributesNothing(r: OpenaiResponse, before: seq<Output>, s: Output, after: seq<Output>)
    requires s.SummaryOutput?
    requires r.output == before + [s] + after
    ensures ExtractText(r) == ExtractText(r.(output := before + after))
  {
    AllTextsAppend(before + [s], after);
    AllTextsAppend(before, [s]);
    assert [s][1..] == [];
    assert AllTexts([s]) == [];
    AllTextsAppend(before, after);
    assert AllTexts(before) + [] == AllTexts(before);
  }

  /** Two groups of outputs that both carry text are separated by exactly one space. */
  lemma ExtractTextAppend(r: OpenaiResponse, a: seq<Output>, b: seq<Output>)
    requires r.output == a + b
    requires AllTexts(a) != [] && AllTexts(b) != []
    ensures ExtractText(r) == ExtractText(r.(output := a)) + " " + ExtractText(r.(output := b))
  {
    AllTextsAppend(a, b);
    JoinAppend(AllTexts(a), AllTexts(b), " ");
  }

  /** With n texts, the result holds their characters and n - 1 spaces. */
  lemma ExtractTextLength(r: OpenaiResponse)
    requires AllTexts(r.output) != []
    ensures |ExtractText(r)| == TotalLength(AllTexts(r.output)) + |AllTexts(r.output)| - 1
  {
    JoinLength(AllTexts(r.output), " ");
  }

  /** openai/src/response.rs, `test_extract_text`. */
  lemma ExtractTextExample()
    ensures ExtractText(DefaultResponse.(output := [ContentOutput("content", "id1", None, None,
      [DefaultContent.(text := "Hello"), DefaultContent.(text := "World")])])) == "Hello World"
  {
    var o := ContentOutput("content", "id1", None, None, [DefaultContent.(text := "Hello"), DefaultContent.(text := "World")]);
    assert OutputTexts(o) == ["Hello", "World"];
    assert [o][1..] == [];
    assert AllTexts([o]) == OutputTexts(o) + AllTexts([]);
    var ts := ["Hello", "World"];
    assert AllTexts([o]) == ts;
    assert ts[1..] == ["World"];
    assert Join(ts[1..], " ") == "World";
    assert Join(ts, " ") == "Hello" + " " + "World";
    assert DefaultResponse.(output := [o]).output == [o];
  }

  /** The default reply has no output and so no text; the default output adds no text either. */
  lemma ExtractTextDefaults()
    ensures ExtractText(DefaultResponse) == ""
    ensures OutputTexts(DefaultOutput()) == []
  {
  }

  /** The usage reported depends on the three totals alone, never on the token details. */
  lemma ConversionIgnoresDetails(r1: OpenaiResponse, r2: OpenaiResponse)
    requires r1.output == r2.output
    requires r1.usage.inputTokens == r2.usage.inputTokens
    requires r1.usage.outputTokens == r2.usage.outputTokens
    requires r1.usage.totalTokens == r2.usage.totalTokens
    ensures ToAiResponse(r1) == ToAiResponse(r2)
  {
  }
}

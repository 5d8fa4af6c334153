/**
 * The bodies of OpenRouter replies (openrouter/src/response.rs): chat
 * completions, streamed completion chunks and the model list, with their
 * conversions.
 */
module OpenrouterResponses {
  import opened Wrappers
  import opened Strings
  import opened Core
  import opened Json

  datatype Usage = Usage(promptTokens: u64, completionTokens: u64, totalTokens: u64)

  datatype Message = Message(role: string, content: string, refusal: Option<Json>, reasoning: Option<Json>)

  datatype Choice = Choice(logprobs: Option<Json>, finishReason: string, nativeFinishReason: string, index: u64, message: Message)

  datatype OpenrouterResponse = OpenrouterResponse(
    id: string, provider: string, model: string, object: string, created: u64,
    choices: seq<Choice>, usage: Usage)

  const DefaultMessage := Message("", "", None, None)
  const DefaultChoice := Choice(None, "", "", 0, DefaultMessage)
  const DefaultResponse := OpenrouterResponse("", "", "", "", 0, [], Usage(0, 0, 0))

  /** The message content of every choice, in choice order. */
  function ChoiceTexts(cs: seq<Choice>): (ts: seq<string>)
    ensures |ts| == |cs| && forall i :: 0 <= i < |cs| ==> ts[i] == cs[i].message.content
  {
    seq(|cs|, i requires 0 <= i < |cs| => cs[i].message.content)
  }

  /** `OpenrouterResponse::extract_text`: the choices' contents joined by single spaces. */
  function ExtractText(r: OpenrouterResponse): string {
    Join(ChoiceTexts(r.choices), " ")
  }

  /** `From<OpenrouterResponse> for AiResponse`: prompt, completion and total tokens become input, output and total. */
  function ToAiResponse(r: OpenrouterResponse): (a: AiResponse)
    ensures a.text == ExtractText(r)
    ensures a.tokenUsage == TokenUsage(Some(r.usage.promptTokens), Some(r.usage.completionTokens), Some(r.usage.totalTokens))
  {
    AiResponse(ExtractText(r), TokenUsage(Some(r.usage.promptTokens), Some(r.usage.completionTokens), Some(r.usage.totalTokens)))
  }

  /** Choices split into two non-empty groups are joined by exactly one space. */
  lemma ExtractTextAppend(r: OpenrouterResponse, a: seq<Choice>, b: seq<Choice>)
    requires r.choices == a + b && a != [] && b != []
    ensures ExtractText(r) == ExtractText(r.(choices := a)) + " " + ExtractText(r.(choices := b))
  {
    assert ChoiceTexts(a + b) == ChoiceTexts(a) + ChoiceTexts(b);
    JoinAppend(ChoiceTexts(a), ChoiceTexts(b), " ");
  }

  /** A single choice gives its content unchanged, with no space added. */
  lemma ExtractTextSingle(r: OpenrouterResponse, c: Choice)
    requires r.choices == [c]
    ensures ExtractText(r) == c.message.content
  {
  }

  /** openrouter/src/response.rs, `test_extract_text_with_multiple_choices`. */
  lemma ExtractTextExample()
    ensures ExtractText(DefaultResponse.(choices := [
      DefaultChoice.(message := DefaultMessage.(content := "First Choice")),
      DefaultChoice.(message := DefaultMessage.(content := "Second Choice"))
    ])) == "First Choice Second Choice"
  {
    var c1 := DefaultChoice.(message := DefaultMessage.(content := "First Choice"));
    var c2 := DefaultChoice.(message := DefaultMessage.(content := "Second Choice"));
    var r := DefaultResponse.(choices := [c1, c2]);
    assert r.choices == [c1] + [c2];
    ExtractTextAppend(r, [c1], [c2]);
    ExtractTextSingle(r.(choices := [c1]), c1);
    ExtractTextSingle(r.(choices := [c2]), c2);
  }

  /** No choices, as in the default reply, give "". */
  lemma ExtractTextEmpty(r: OpenrouterResponse)
    requires r.choices == []
    ensures ExtractText(r) == ""
    ensures ExtractText(DefaultResponse) == ""
  {
  }

  datatype ModelsItem = ModelsItem(id: string, name: string)

  datatype ModelsList = ModelsList(data: seq<ModelsItem>)

  /** The list `From<ModelsList>` builds: one `ModelId` per item, id and name copied, same order. */
  function ModelIds(l: ModelsList): (ids: seq<ModelId>)
    ensures |ids| == |l.data|
    ensures forall i :: 0 <= i < |l.data| ==> ids[i].id == l.data[i].id && ids[i].name == l.data[i].name
  {
    seq(|l.data|, i requires 0 <= i < |l.data| => ModelId(l.data[i].id, l.data[i].name))
  }

  /** `From<ModelsList> for Vec<ModelId>`: a `for` loop pushing one `ModelId` per item. */
  method ConvertModelsList(value: ModelsList) returns (list: seq<ModelId>)
    ensures list == ModelIds(value)
  {
    list := [];
    for i := 0 to |value.data|
      invariant |list| == i
      invariant forall k :: 0 <= k < i ==> list[k] == ModelId(value.data[k].id, value.data[k].name)
    {
      var model := value.data[i];
      list := list + [ModelId(model.id, model.name)];
    }
  }

  /** openrouter/tests/openrouter_client.rs: the listed model keeps its id and name. */
  lemma ModelIdsExample()
    ensures ModelIds(ModelsList([ModelsItem("openai/gpt-5", "OpenAI: GPT-5")])) == [ModelId("openai/gpt-5", "OpenAI: GPT-5")]
  {
  }

  datatype StreamDelta = StreamDelta(role: Option<string>, content: Option<string>)

  datatype StreamChoice = StreamChoice(
    index: u64, delta: StreamDelta, finishReason: Option<string>, nativeFinishReason: Option<string>, logprobs: Option<Json>)

  datatype OpenrouterStreamResponse = OpenrouterStreamResponse(
    id: string, provider: string, model: string, object: string, created: u64,
    choices: seq<StreamChoice>, usage: Option<Usage>)

  /** Each chunk choice's delta content, an absent one read as "". */
  function DeltaTexts(cs: seq<StreamChoice>): (ts: seq<string>)
    ensures |ts| == |cs|
    ensures forall i :: 0 <= i < |cs| ==> ts[i] == cs[i].delta.content.GetOr("")
  {
    seq(|cs|, i requires 0 <= i < |cs| => cs[i].delta.content.GetOr(""))
  }

  /** `OpenrouterStreamResponse::extract_text`. */
  function ExtractStreamText(r: OpenrouterStreamResponse): string {
    Join(DeltaTexts(r.choices), " ")
  }

  /**
   * A choice without delta content still takes its place in the join: between
   * two non-empty groups of choices it leaves two consecutive spaces.
   */
  lemma MissingDeltaKeepsSlot(r: OpenrouterStreamResponse, before: seq<StreamChoice>, c: StreamChoice, after: seq<StreamChoice>)
    requires r.choices == before + [c] + after && c.delta.content.None?
    requires before != [] && after != []
    ensures ExtractStreamText(r) == ExtractStreamText(r.(choices := before)) + "  " + ExtractStreamText(r.(choices := after))
  {
    assert DeltaTexts(before + [c] + after) == DeltaTexts(before) + ([""] + DeltaTexts(after));
    JoinAppend(DeltaTexts(before), [""] + DeltaTexts(after), " ");
    assert ([""] + DeltaTexts(after))[1..] == DeltaTexts(after);
  }

  /** A chunk with n choices yields their characters and n - 1 spaces. */
  lemma StreamTextLength(r: OpenrouterStreamResponse)
    requires r.choices != []
    ensures |ExtractStreamText(r)| == TotalLength(DeltaTexts(r.choices)) + |r.choices| - 1
  {
    JoinLength(DeltaTexts(r.choices), " ");
  }
}

/** The provider-neutral request and response records (packages/core/src/llm/adapter/interface.ts). */
module AdapterInterface {
  import opened Wrappers
  import opened Json
  import opened MessageTypes
  import opened StreamTypes
  import opened ToolTypes
  import opened Strings
  import opened Errors

  /** `responseFormat?: 'text' | 'json'` */
  datatype ResponseFormat = TextFormat | JsonFormat

  /** `UnifiedGenerateRequest`. The sampling numbers are passed through untouched, so a `real` stands
      for the JavaScript number; the abort signal is not part of the record here. */
  datatype GenerateRequest = GenerateRequest(
    model: string,
    messages: seq<Message>,
    systemInstruction: Option<string>,
    tools: Option<seq<ToolSchema>>,
    toolChoice: Option<ToolChoice>,
    temperature: Option<real>,
    maxTokens: Option<real>,
    topP: Option<real>,
    topK: Option<real>,
    stopSequences: Option<seq<string>>,
    responseFormat: Option<ResponseFormat>,
    responseSchema: Option<map<string, Json>>)

  /** `UnifiedGenerateResponse` */
  datatype GenerateResponse = GenerateResponse(
    message: Message,
    finishReason: FinishReason,
    usage: Option<Usage>,
    metadata: map<string, Json>)

  /** What iterating `generateContentStream` produces: the events it yields, then either the end of
      the stream (`failure == None`) or a throw. A throw before the first event is a stream of no
      events that fails. */
  datatype AdapterStream = AdapterStream(events: seq<StreamEvent>, failure: Option<Thrown>)

  // ---- the content of an assistant reply ----

  /** One tool-call part per call, in order. */
  function ToolCallParts(calls: seq<ToolCall>): (parts: seq<ContentPart>)
    ensures |parts| == |calls|
  {
    seq(|calls|, k requires 0 <= k < |calls| => ToolCallPart(calls[k]))
  }

  /** The content of an assistant reply, as both the Gemini adapter and the chat session assemble it:
      a text part when the text is non-empty, then one tool-call part per call. */
  function ReplyContent(text: string, calls: seq<ToolCall>): seq<ContentPart> {
    (if text != "" then [TextPart(text)] else []) + ToolCallParts(calls)
  }

  lemma {:induction false} ToolCallPartsProjections(calls: seq<ToolCall>)
    ensures TextsOf(ToolCallParts(calls)) == []
    ensures ToolCallsOf(ToolCallParts(calls)) == calls
    decreases |calls|
  {
    if calls != [] {
      var n := |calls| - 1;
      assert ToolCallParts(calls)[..n] == ToolCallParts(calls[..n]);
      ToolCallPartsProjections(calls[..n]);
      assert calls[..n] + [calls[n]] == calls;
    }
  }

  /** A reply's text projection is its text and its tool-call projection its calls, and the reply is
      empty exactly when both are. */
  lemma ReplyContentProjections(text: string, calls: seq<ToolCall>)
    ensures ExtractText(Message(AssistantRole, ReplyContent(text, calls), None)) == text
    ensures ExtractToolCalls(Message(AssistantRole, ReplyContent(text, calls), None)) == calls
    ensures ReplyContent(text, calls) == [] <==> text == "" && calls == []
    ensures |ReplyContent(text, calls)| == (if text != "" then 1 else 0) + |calls|
  {
    var head: seq<ContentPart> := if text != "" then [TextPart(text)] else [];
    ToolCallPartsProjections(calls);
    TextsOfAppend(head, ToolCallParts(calls));
    ToolCallsOfAppend(head, ToolCallParts(calls));
    if text != "" {
      SinglePart(TextPart(text));
    }
    assert Join([], "") == "";
  }

  /** The loop `for (const tc of toolCalls) content.push({ type: 'toolCall', toolCall: tc })`. */
  method PushToolCalls(content: seq<ContentPart>, calls: seq<ToolCall>) returns (r: seq<ContentPart>)
    ensures r == content + ToolCallParts(calls)
  {
    r := content;
    for i := 0 to |calls|
      invariant r == content + ToolCallParts(calls[..i])
    {
      assert ToolCallParts(calls[..i + 1]) == ToolCallParts(calls[..i]) + [ToolCallPart(calls[i])];
      r := r + [ToolCallPart(calls[i])];
    }
    assert calls[..|calls|] == calls;
  }
}

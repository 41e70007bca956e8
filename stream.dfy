/** Unified stream events, finish reasons and their helpers (packages/core/src/llm/types/stream.ts). */
module StreamTypes {
  import opened Wrappers
  import opened Strings

  /** `UnifiedFinishReason` */
  datatype FinishReason = Stop | Length | ToolCalls | ContentFilter | Error

  datatype Usage = Usage(promptTokens: int, completionTokens: int, totalTokens: int)

  /** `UnifiedStreamEvent`. Absent optional fields are `None`. */
  datatype StreamEvent =
    | ContentDelta(delta: string, traceId: Option<string>)
    | ToolCallDelta(toolCallId: string, name: Option<string>, argumentsDelta: Option<string>)
    | UsageUpdate(usage: Usage)
    | Done(finishReason: FinishReason)
    | Thought(thought: string)

  predicate IsContentDelta(e: StreamEvent) {
    e.ContentDelta?
  }

  predicate IsToolCallDelta(e: StreamEvent) {
    e.ToolCallDelta?
  }

  predicate IsDoneEvent(e: StreamEvent) {
    e.Done?
  }

  /** The three type guards are mutually exclusive, and none of them accepts a usage or thought event. */
  lemma GuardsClassify(e: StreamEvent)
    ensures IsContentDelta(e) ==> !IsToolCallDelta(e) && !IsDoneEvent(e)
    ensures IsToolCallDelta(e) ==> !IsDoneEvent(e)
    ensures (e.UsageUpdate? || e.Thought?) <==> !IsContentDelta(e) && !IsToolCallDelta(e) && !IsDoneEvent(e)
  {
  }

  /** The in-order concatenation of the `contentDelta` deltas of `events`. */
  function ContentText(events: seq<StreamEvent>): string
    decreases |events|
  {
    if events == [] then ""
    else
      var last := events[|events| - 1];
      ContentText(events[..|events| - 1]) + (if last.ContentDelta? then last.delta else "")
  }

  /** Text collection splits over concatenated streams. */
  lemma {:induction false} ContentTextAppend(a: seq<StreamEvent>, b: seq<StreamEvent>)
    ensures ContentText(a + b) == ContentText(a) + ContentText(b)
    decreases |b|
  {
    if b == [] {
      assert a + b == a;
    } else {
      assert (a + b)[..|a + b| - 1] == a + b[..|b| - 1];
      ContentTextAppend(a, b[..|b| - 1]);
    }
  }

  /** A stream with no `contentDelta` event collects to the empty text. */
  lemma {:induction false} ContentTextIgnoresOthers(events: seq<StreamEvent>)
    requires forall i :: 0 <= i < |events| ==> !events[i].ContentDelta?
    ensures ContentText(events) == ""
    decreases |events|
  {
    if events != [] {
      ContentTextIgnoresOthers(events[..|events| - 1]);
    }
  }

  /** `collectStreamText`: the loop that accumulates `text` over the events of the stream. */
  method CollectStreamText(stream: seq<StreamEvent>) returns (text: string)
    ensures text == ContentText(stream)
  {
    text := "";
    var i := 0;
    while i < |stream|
      invariant 0 <= i <= |stream|
      invariant text == ContentText(stream[..i])
    {
      var event := stream[i];
      assert stream[..i + 1][..i] == stream[..i];
      if IsContentDelta(event) {
        text := text + event.delta;
      }
      i := i + 1;
    }
    assert stream[..i] == stream;
  }

  /** Gemini finish-reason strings with a fixed meaning. */
  predicate IsNamedGeminiReason(reason: string) {
    reason in {"STOP", "MAX_TOKENS", "SAFETY", "BLOCKLIST", "PROHIBITED_CONTENT", "MALFORMED_FUNCTION_CALL"}
  }

  /** `mapGeminiFinishReason`. Every string maps to exactly one reason; the postconditions give, for each
      reason, exactly which strings map to it. */
  function MapGeminiFinishReason(reason: string): (r: FinishReason)
    ensures r == Length <==> reason == "MAX_TOKENS"
    ensures r == ContentFilter <==> reason in {"SAFETY", "BLOCKLIST", "PROHIBITED_CONTENT"}
    ensures r == Error <==> reason == "MALFORMED_FUNCTION_CALL"
    ensures r == ToolCalls <==>
              !IsNamedGeminiReason(reason) && (Contains(reason, "TOOL") || Contains(reason, "FUNCTION"))
    ensures r == Stop <==>
              reason == "STOP" || (!IsNamedGeminiReason(reason) && !Contains(reason, "TOOL") && !Contains(reason, "FUNCTION"))
  {
    match reason
    case "STOP" => Stop
    case "MAX_TOKENS" => Length
    case "SAFETY" => ContentFilter
    case "BLOCKLIST" => ContentFilter
    case "PROHIBITED_CONTENT" => ContentFilter
    case "MALFORMED_FUNCTION_CALL" => Error
    case _ =>
      if Contains(reason, "TOOL") || Contains(reason, "FUNCTION") then ToolCalls else Stop
  }
}

/** Normalisation of Gemini stream chunks into unified events, and the fold that rebuilds a whole
    response from unified events (packages/core/src/llm/adapters/gemini/stream-processor.ts). The SDK
    stream is the finite list of chunks it delivers; `stamps(k)` supplies the generated-id suffixes of
    chunk `k`. */
module StreamProcessor {
  import opened Wrappers
  import opened Strings
  import opened Json
  import opened MessageTypes
  import opened StreamTypes
  import opened GeminiTypes
  import opened Converter
  import opened ToolCallTable

  // ---- one chunk ----

  /** The text of the first thought part, when it is non-empty. */
  function ThoughtText(parts: seq<Part>): Option<string> {
    var t := FirstThought(parts);
    if t.Some? && Truthy(t.value.text) then t.value.text else None
  }

  /** The counters of a usage record; a missing count is 0. */
  function UsageOf(u: UsageMetadata): Usage {
    Usage(u.promptTokenCount.GetOr(0), u.candidatesTokenCount.GetOr(0), u.totalTokenCount.GetOr(0))
  }

  /** The `toolCallDelta` event of an extracted call: its arguments travel serialised. */
  function ToolDelta(tc: ToolCall, codec: Codec): StreamEvent {
    ToolCallDelta(tc.id, Some(tc.name), Some(codec.stringify(tc.arguments)))
  }

  function ToolDeltas(calls: seq<ToolCall>, codec: Codec): (es: seq<StreamEvent>)
    ensures |es| == |calls|
  {
    seq(|calls|, k requires 0 <= k < |calls| => ToolDelta(calls[k], codec))
  }

  /** The content delta of a chunk: its visible text, when non-empty. */
  function TextSegment(r: Response): seq<StreamEvent> {
    var text := ExtractTextFromGeminiParts(FirstCandidateParts(r));
    if text != "" then [ContentDelta(text, r.responseId)] else []
  }

  /** The tool-call deltas of a chunk, one per function call. */
  function ToolSegment(r: Response, codec: Codec, stamp: nat -> string): seq<StreamEvent> {
    ToolDeltas(ExtractToolCallsFromGeminiParts(FirstCandidateParts(r), stamp), codec)
  }

  /** The usage event of a chunk, when it has usage metadata. */
  function UsageSegment(r: Response): seq<StreamEvent> {
    match r.usageMetadata
    case Some(u) => [UsageUpdate(UsageOf(u))]
    case None => []
  }

  /** The done event of a chunk, when it has a non-empty finish reason. */
  function DoneSegment(r: Response): seq<StreamEvent> {
    var finish := FirstFinishReason(r);
    if Truthy(finish) then [Done(MapGeminiFinishReason(finish.value))] else []
  }

  /** The events one chunk yields. */
  function ChunkEvents(r: Response, codec: Codec, stamp: nat -> string): seq<StreamEvent> {
    match ThoughtText(FirstCandidateParts(r))
    case Some(t) => [Thought(t)]
    case None => TextSegment(r) + ToolSegment(r, codec, stamp) + UsageSegment(r) + DoneSegment(r)
  }

  /** The events of the chunks of a stream, chunk after chunk. */
  function StreamOf(chunks: seq<Response>, codec: Codec, stamps: nat -> nat -> string): seq<StreamEvent>
    decreases |chunks|
  {
    if chunks == [] then []
    else
      var n := |chunks| - 1;
      StreamOf(chunks[..n], codec, stamps) + ChunkEvents(chunks[n], codec, stamps(n))
  }

  /** `processGeminiStream`: the loop over the chunks, yielding each chunk's events in turn. */
  method ProcessGeminiStream(chunks: seq<Response>, codec: Codec, stamps: nat -> nat -> string)
    returns (events: seq<StreamEvent>)
    ensures events == StreamOf(chunks, codec, stamps)
  {
    events := [];
    var i := 0;
    while i < |chunks|
      invariant 0 <= i <= |chunks|
      invariant events == StreamOf(chunks[..i], codec, stamps)
    {
      assert chunks[..i + 1][..i] == chunks[..i];
      var yielded := ProcessChunk(chunks[i], codec, stamps(i));
      events := events + yielded;
      i := i + 1;
    }
    assert chunks[..i] == chunks;
  }

  /** The body of the chunk loop: the thought check with its `continue`, then text, the loop over the
      tool calls, usage and finish reason. */
  method ProcessChunk(response: Response, codec: Codec, stamp: nat -> string) returns (yielded: seq<StreamEvent>)
    ensures yielded == ChunkEvents(response, codec, stamp)
  {
    var parts := FirstCandidateParts(response);
    var thoughtPart := FirstThought(parts);
    if thoughtPart.Some? && Truthy(thoughtPart.value.text) {
      return [Thought(thoughtPart.value.text.value)];
    }
    yielded := [];
    var text := ExtractTextFromGeminiParts(parts);
    if text != "" {
      yielded := yielded + [ContentDelta(text, response.responseId)];
    }
    var toolCalls := ExtractToolCallsFromGeminiParts(parts, stamp);
    var deltas := YieldToolDeltas(toolCalls, codec);
    yielded := yielded + deltas;
    if response.usageMetadata.Some? {
      yielded := yielded + [UsageUpdate(UsageOf(response.usageMetadata.value))];
    }
    var finishReason := FirstFinishReason(response);
    if Truthy(finishReason) {
      yielded := yielded + [Done(MapGeminiFinishReason(finishReason.value))];
    }
  }

  /** `for (const toolCall of toolCalls) yield { type: 'toolCallDelta', ... }` */
  method YieldToolDeltas(toolCalls: seq<ToolCall>, codec: Codec) returns (yielded: seq<StreamEvent>)
    ensures yielded == ToolDeltas(toolCalls, codec)
  {
    yielded := [];
    for j := 0 to |toolCalls|
      invariant yielded == ToolDeltas(toolCalls, codec)[..j]
    {
      assert ToolDeltas(toolCalls, codec)[..j + 1] == ToolDeltas(toolCalls, codec)[..j] + [ToolDelta(toolCalls[j], codec)];
      yielded := yielded + [ToolDelta(toolCalls[j], codec)];
    }
    assert ToolDeltas(toolCalls, codec)[..|toolCalls|] == ToolDeltas(toolCalls, codec);
  }

  // ---- the per-chunk rule ----

  /** The position of an event kind in a chunk's fixed emission order. */
  function Rank(e: StreamEvent): nat {
    match e
    case ContentDelta(_, _) => 0
    case ToolCallDelta(_, _, _) => 1
    case UsageUpdate(_) => 2
    case Done(_) => 3
    case Thought(_) => 4
  }

  function Kinds(es: seq<StreamEvent>): (ks: seq<nat>)
    ensures |ks| == |es|
  {
    seq(|es|, i requires 0 <= i < |es| => Rank(es[i]))
  }

  /** `n` copies of `k`. */
  function Repeat(n: nat, k: nat): (s: seq<nat>)
    ensures |s| == n
  {
    seq(n, _ => k)
  }

  function Count(b: bool): nat {
    if b then 1 else 0
  }

  /** A chunk whose first thought part has text yields exactly that thought and nothing else. */
  lemma ThoughtChunk(r: Response, codec: Codec, stamp: nat -> string)
    requires ThoughtText(FirstCandidateParts(r)).Some?
    ensures ChunkEvents(r, codec, stamp) == [Thought(ThoughtText(FirstCandidateParts(r)).value)]
  {
  }

  lemma {:induction false} KindsAppend(a: seq<StreamEvent>, b: seq<StreamEvent>)
    ensures Kinds(a + b) == Kinds(a) + Kinds(b)
  {
    assert forall i :: 0 <= i < |a| ==> (a + b)[i] == a[i];
    assert forall i :: |a| <= i < |a + b| ==> (a + b)[i] == b[i - |a|];
  }

  lemma KindsAll(s: seq<StreamEvent>, k: nat)
    requires forall i :: 0 <= i < |s| ==> Rank(s[i]) == k
    ensures Kinds(s) == Repeat(|s|, k)
  {
  }

  /** The sizes of a chunk's four segments. */
  lemma SegmentSizes(r: Response, codec: Codec, stamp: nat -> string)
    ensures |TextSegment(r)| == Count(ExtractTextFromGeminiParts(FirstCandidateParts(r)) != "")
    ensures |ToolSegment(r, codec, stamp)| == |FunctionCallsOf(FirstCandidateParts(r))|
    ensures |UsageSegment(r)| == Count(r.usageMetadata.Some?)
    ensures |DoneSegment(r)| == Count(Truthy(FirstFinishReason(r)))
  {
    ExtractedToolCalls(FirstCandidateParts(r), stamp);
  }

  /** The kinds of a non-thought chunk's events, in order. */
  lemma ChunkKinds(r: Response, codec: Codec, stamp: nat -> string)
    requires ThoughtText(FirstCandidateParts(r)).None?
    ensures Kinds(ChunkEvents(r, codec, stamp)) ==
              Repeat(|TextSegment(r)|, 0) + Repeat(|ToolSegment(r, codec, stamp)|, 1) +
              Repeat(|UsageSegment(r)|, 2) + Repeat(|DoneSegment(r)|, 3)
  {
    var s0 := TextSegment(r);
    var s1 := ToolSegment(r, codec, stamp);
    var s2 := UsageSegment(r);
    var s3 := DoneSegment(r);
    assert ChunkEvents(r, codec, stamp) == s0 + s1 + s2 + s3;
    KindsAppend(s0 + s1 + s2, s3);
    KindsAppend(s0 + s1, s2);
    KindsAppend(s0, s1);
    KindsAll(s0, 0);
    KindsAll(s1, 1);
    KindsAll(s2, 2);
    KindsAll(s3, 3);
  }

  /** Any other chunk yields, in this order: at most one content delta (exactly when the visible
      text is non-empty), one tool-call delta per function-call part, at most one usage event (exactly
      when usage metadata is present) and at most one done event (exactly when a non-empty finish
      reason is present); never a thought. */
  lemma ChunkOrder(r: Response, codec: Codec, stamp: nat -> string)
    requires ThoughtText(FirstCandidateParts(r)).None?
    ensures Kinds(ChunkEvents(r, codec, stamp)) ==
              Repeat(Count(ExtractTextFromGeminiParts(FirstCandidateParts(r)) != ""), 0) +
              Repeat(|FunctionCallsOf(FirstCandidateParts(r))|, 1) +
              Repeat(Count(r.usageMetadata.Some?), 2) +
              Repeat(Count(Truthy(FirstFinishReason(r))), 3)
  {
    SegmentSizes(r, codec, stamp);
    ChunkKinds(r, codec, stamp);
  }

  /** The content delta of such a chunk comes first and holds the visible text and the response id. */
  lemma ChunkText(r: Response, codec: Codec, stamp: nat -> string)
    requires ThoughtText(FirstCandidateParts(r)).None?
    requires ExtractTextFromGeminiParts(FirstCandidateParts(r)) != ""
    ensures |ChunkEvents(r, codec, stamp)| > 0
    ensures ChunkEvents(r, codec, stamp)[0] == ContentDelta(ExtractTextFromGeminiParts(FirstCandidateParts(r)), r.responseId)
  {
    var s0 := TextSegment(r);
    var rest := ToolSegment(r, codec, stamp) + UsageSegment(r) + DoneSegment(r);
    assert ChunkEvents(r, codec, stamp) == s0 + rest;
  }

  /** The `k`-th tool-call delta of such a chunk, right after the content delta if any, holds the
      `k`-th extracted call with its arguments serialised. */
  lemma ChunkToolCalls(r: Response, codec: Codec, stamp: nat -> string)
    requires ThoughtText(FirstCandidateParts(r)).None?
    ensures var calls := ExtractToolCallsFromGeminiParts(FirstCandidateParts(r), stamp);
            var a := Count(ExtractTextFromGeminiParts(FirstCandidateParts(r)) != "");
            var es := ChunkEvents(r, codec, stamp);
            forall k :: 0 <= k < |calls| ==>
              a + k < |es| &&
              es[a + k] == ToolCallDelta(calls[k].id, Some(calls[k].name), Some(codec.stringify(calls[k].arguments)))
  {
    var calls := ExtractToolCallsFromGeminiParts(FirstCandidateParts(r), stamp);
    var s2 := UsageSegment(r) + DoneSegment(r);
    assert ChunkEvents(r, codec, stamp) == TextSegment(r) + ToolDeltas(calls, codec) + s2;
    DeltasBetween(TextSegment(r), calls, codec, s2);
  }

  lemma DeltasBetween(s0: seq<StreamEvent>, calls: seq<ToolCall>, codec: Codec, s2: seq<StreamEvent>)
    ensures var es := s0 + ToolDeltas(calls, codec) + s2;
            forall k :: 0 <= k < |calls| ==> |s0| + k < |es| && es[|s0| + k] == ToolDelta(calls[k], codec)
  {
    var es := s0 + ToolDeltas(calls, codec) + s2;
    forall k | 0 <= k < |calls|
      ensures |s0| + k < |es| && es[|s0| + k] == ToolDelta(calls[k], codec)
    {
      assert es[|s0| + k] == ToolDeltas(calls, codec)[k];
    }
  }

  /** The usage event of such a chunk comes right before the done event if any, and carries the
      counters with missing ones as 0. */
  lemma ChunkUsage(r: Response, codec: Codec, stamp: nat -> string)
    requires ThoughtText(FirstCandidateParts(r)).None?
    requires r.usageMetadata.Some?
    ensures var es := ChunkEvents(r, codec, stamp);
            var d := Count(Truthy(FirstFinishReason(r)));
            |es| >= 1 + d && es[|es| - 1 - d] == UsageUpdate(UsageOf(r.usageMetadata.value))
  {
    var s0 := TextSegment(r) + ToolSegment(r, codec, stamp);
    var s2 := UsageSegment(r);
    var s3 := DoneSegment(r);
    assert ChunkEvents(r, codec, stamp) == s0 + s2 + s3;
    assert |s3| == Count(Truthy(FirstFinishReason(r)));
  }

  /** The done event of such a chunk, when its finish reason is non-empty, comes last and carries the
      mapped reason. */
  lemma ChunkDone(r: Response, codec: Codec, stamp: nat -> string)
    requires ThoughtText(FirstCandidateParts(r)).None?
    requires Truthy(FirstFinishReason(r))
    ensures var es := ChunkEvents(r, codec, stamp);
            |es| > 0 && es[|es| - 1] == Done(MapGeminiFinishReason(FirstFinishReason(r).value))
  {
    var s0 := TextSegment(r) + ToolSegment(r, codec, stamp) + UsageSegment(r);
    assert ChunkEvents(r, codec, stamp) == s0 + DoneSegment(r);
  }

  // ---- collecting a whole response ----

  /** The reason of the last `done` event. */
  function LastFinish(events: seq<StreamEvent>): Option<FinishReason>
    decreases |events|
  {
    if events == [] then None
    else
      var n := |events| - 1;
      if events[n].Done? then Some(events[n].finishReason) else LastFinish(events[..n])
  }

  /** The counters of the last `usage` event. */
  function LastUsage(events: seq<StreamEvent>): Option<Usage>
    decreases |events|
  {
    if events == [] then None
    else
      var n := |events| - 1;
      if events[n].UsageUpdate? then Some(events[n].usage) else LastUsage(events[..n])
  }

  /** `LastFinish` is absent iff there is no `done` event, and is otherwise the reason of a `done` event
      that no later `done` follows. */
  lemma {:induction false} LastFinishIs(events: seq<StreamEvent>)
    ensures LastFinish(events).None? <==> forall i :: 0 <= i < |events| ==> !events[i].Done?
    ensures LastFinish(events).Some? ==>
              exists i :: 0 <= i < |events| && events[i] == Done(LastFinish(events).value) &&
                          forall j :: i < j < |events| ==> !events[j].Done?
    decreases |events|
  {
    if events != [] {
      var n := |events| - 1;
      if !events[n].Done? {
        LastFinishIs(events[..n]);
        assert forall i :: 0 <= i < n ==> events[i] == events[..n][i];
        if LastFinish(events).Some? {
          var i :| 0 <= i < n && events[..n][i] == Done(LastFinish(events).value) &&
                   forall j :: i < j < n ==> !events[..n][j].Done?;
          assert events[i] == Done(LastFinish(events).value);
        }
      }
    }
  }

  /** `LastUsage` is absent iff there is no `usage` event, and is otherwise the counters of a `usage`
      event that no later `usage` follows. */
  lemma {:induction false} LastUsageIs(events: seq<StreamEvent>)
    ensures LastUsage(events).None? <==> forall i :: 0 <= i < |events| ==> !events[i].UsageUpdate?
    ensures LastUsage(events).Some? ==>
              exists i :: 0 <= i < |events| && events[i] == UsageUpdate(LastUsage(events).value) &&
                          forall j :: i < j < |events| ==> !events[j].UsageUpdate?
    decreases |events|
  {
    if events != [] {
      var n := |events| - 1;
      if !events[n].UsageUpdate? {
        LastUsageIs(events[..n]);
        assert forall i :: 0 <= i < n ==> events[i] == events[..n][i];
        if LastUsage(events).Some? {
          var i :| 0 <= i < n && events[..n][i] == UsageUpdate(LastUsage(events).value) &&
                   forall j :: i < j < n ==> !events[..n][j].UsageUpdate?;
          assert events[i] == UsageUpdate(LastUsage(events).value);
        }
      }
    }
  }

  /** The texts of the thought events, in arrival order. */
  function ThoughtsOf(events: seq<StreamEvent>): seq<string>
    decreases |events|
  {
    if events == [] then []
    else
      var last := events[|events| - 1];
      ThoughtsOf(events[..|events| - 1]) + (if last.Thought? then [last.thought] else [])
  }

  /** Thought collection splits over concatenated streams. */
  lemma {:induction false} ThoughtsOfAppend(a: seq<StreamEvent>, b: seq<StreamEvent>)
    ensures ThoughtsOf(a + b) == ThoughtsOf(a) + ThoughtsOf(b)
    decreases |b|
  {
    if b == [] {
      assert a + b == a;
    } else {
      assert (a + b)[..|a + b| - 1] == a + b[..|b| - 1];
      ThoughtsOfAppend(a, b[..|b| - 1]);
    }
  }

  /** The result of `collectStreamResponse`. */
  datatype Collected = Collected(text: string, toolCalls: seq<ToolCall>, finishReason: FinishReason,
                                 usage: Option<Usage>, thoughts: seq<string>)

  /** One more event, as each of the fold's results sees it. */
  lemma CollectStep(p: seq<StreamEvent>, e: StreamEvent)
    ensures ContentText(p + [e]) == ContentText(p) + (if e.ContentDelta? then e.delta else "")
    ensures TableOf(p + [e]) ==
              (if e.ToolCallDelta? then Record(TableOf(p), e.toolCallId, e.name, e.argumentsDelta) else TableOf(p))
    ensures LastFinish(p + [e]) == (if e.Done? then Some(e.finishReason) else LastFinish(p))
    ensures LastUsage(p + [e]) == (if e.UsageUpdate? then Some(e.usage) else LastUsage(p))
    ensures ThoughtsOf(p + [e]) == ThoughtsOf(p) + (if e.Thought? then [e.thought] else [])
  {
    assert (p + [e])[..|p|] == p;
  }

  /** `collectStreamResponse`: the event loop updating `text`, the tool-call map, `finishReason`,
      `usage` and `thoughts`, then the loop over the map's entries. */
  method CollectStreamResponse(stream: seq<StreamEvent>, codec: Codec) returns (r: Collected)
    ensures r.text == ContentText(stream)
    ensures r.toolCalls == Materialized(TableOf(stream), codec)
    ensures r.finishReason == LastFinish(stream).GetOr(Stop)
    ensures r.usage == LastUsage(stream)
    ensures r.thoughts == ThoughtsOf(stream)
  {
    var text := "";
    var toolCallMap := EmptyTable;
    var finishReason := Stop;
    var usage: Option<Usage> := None;
    var thoughts: seq<string> := [];
    var i := 0;
    while i < |stream|
      invariant 0 <= i <= |stream|
      invariant text == ContentText(stream[..i])
      invariant toolCallMap == TableOf(stream[..i])
      invariant LastFinish(stream[..i]).GetOr(Stop) == finishReason
      invariant usage == LastUsage(stream[..i])
      invariant thoughts == ThoughtsOf(stream[..i])
    {
      var event := stream[i];
      assert stream[..i + 1] == stream[..i] + [event];
      CollectStep(stream[..i], event);
      match event {
        case ContentDelta(delta, _) =>
          text := text + delta;
        case ToolCallDelta(id, name, argumentsDelta) =>
          toolCallMap := RecordDelta(toolCallMap, id, name, argumentsDelta);
        case UsageUpdate(u) =>
          usage := Some(u);
        case Done(reason) =>
          finishReason := reason;
        case Thought(thought) =>
          thoughts := thoughts + [thought];
      }
      i := i + 1;
    }
    assert stream[..i] == stream;
    var toolCalls := BuildToolCalls(toolCallMap, codec);
    r := Collected(text, toolCalls, finishReason, usage, thoughts);
  }
}

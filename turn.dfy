/** One turn of a conversation (packages/core/src/llm/chat/turn.ts): the session's stream mapped to
    turn events, with streamed tool calls gathered per call id and requested on `done`. */
module Turn {
  import opened Wrappers
  import opened Json
  import opened Strings
  import opened MessageTypes
  import opened StreamTypes
  import opened Errors
  import opened ToolCallTable
  import opened StreamProcessor
  import opened AdapterInterface
  import opened Chat

  /** `ToolCallRequestInfo` */
  datatype ToolCallRequestInfo = ToolCallRequestInfo(callId: string, name: string, args: Json, promptId: string)

  /** `TurnEvent` */
  datatype TurnEvent =
    | ContentEvent(value: string, traceId: Option<string>)
    | ToolCallRequestEvent(request: ToolCallRequestInfo)
    | ThoughtEvent(thought: string)
    | FinishedEvent(reason: FinishReason, usage: Option<Usage>)
    | ErrorEvent(message: string, status: Option<int>)
    | RetryEvent
    | UsageEvent(counts: Usage)

  // ---- the status of a thrown value ----

  /** `extractStatus`: a numeric `status`, else a numeric `statusCode`, of a thrown object. */
  function ExtractStatus(t: Thrown): (r: Option<int>)
    ensures FieldsOf(t).None? ==> r.None?
    ensures FieldsOf(t).Some? && FieldsOf(t).value.status.Number? ==> r == Some(FieldsOf(t).value.status.n)
    ensures FieldsOf(t).Some? && !FieldsOf(t).value.status.Number? ==>
              r == (if FieldsOf(t).value.statusCode.Number? then Some(FieldsOf(t).value.statusCode.n) else None)
  {
    match FieldsOf(t)
    case None => None
    case Some(f) =>
      if f.status.Number? then Some(f.status.n)
      else if f.statusCode.Number? then Some(f.statusCode.n)
      else None
  }

  /** The status a turn reports agrees with the one `createUnifiedError` classifies by, except when
      `status` is present but not a number: `extractStatus` then falls back to `statusCode`, which
      `createUnifiedError` ignores. */
  lemma ReportedStatusAgreesWithClassification(t: Thrown)
    ensures FieldsOf(t).None? || !FieldsOf(t).value.status.NonNumber? ==>
              (ExtractStatus(t).Some? <==> StatusField(t).Number?) &&
              (ExtractStatus(t).Some? ==> ExtractStatus(t).value == StatusField(t).n)
    ensures t == ErrorValue("Error", "", Fields(NonNumber, Number(503), None)) ==>
              ExtractStatus(t) == Some(503) && StatusField(t) == NonNumber
  {
  }

  // ---- pending tool calls ----

  /** `pendingToolCalls.find(tc => tc.callId === id)`, as a position. */
  function FindCall(pending: seq<ToolCallRequestInfo>, id: string): (r: Option<nat>)
    ensures r.Some? ==> r.value < |pending| && pending[r.value].callId == id &&
                        forall j :: 0 <= j < r.value ==> pending[j].callId != id
    ensures r.None? ==> forall j :: 0 <= j < |pending| ==> pending[j].callId != id
    decreases |pending|
  {
    if pending == [] then None
    else if pending[0].callId == id then Some(0)
    else
      match FindCall(pending[1..], id)
      case None => None
      case Some(k) => Some(k + 1)
  }

  /** The first call with the id is the one found. */
  lemma FindCallAt(pending: seq<ToolCallRequestInfo>, id: string, k: nat)
    requires k < |pending| && pending[k].callId == id
    requires forall j :: 0 <= j < k ==> pending[j].callId != id
    ensures FindCall(pending, id) == Some(k)
  {
  }

  /** The arguments after a fragment: its parse when it is non-empty and parses, else unchanged. */
  function ParsedArgs(args: Json, argumentsDelta: Option<string>, codec: Codec): Json {
    if Truthy(argumentsDelta) && codec.parse(argumentsDelta.value).Some? then codec.parse(argumentsDelta.value).value
    else args
  }

  /** `handleToolCallDelta`: the first delta of an id adds a call named by it or `'unknown'`; a later
      non-empty name replaces the name; a fragment that parses replaces the arguments. */
  function PendingStep(pending: seq<ToolCallRequestInfo>, id: string, name: Option<string>,
                       argumentsDelta: Option<string>, codec: Codec, promptId: string): seq<ToolCallRequestInfo>
  {
    match FindCall(pending, id)
    case Some(k) =>
      var call := pending[k];
      pending[k := call.(name := if Truthy(name) then name.value else call.name,
                         args := ParsedArgs(call.args, argumentsDelta, codec))]
    case None =>
      pending + [ToolCallRequestInfo(id, if Truthy(name) then name.value else "unknown",
                                     ParsedArgs(EmptyObject, argumentsDelta, codec), promptId)]
  }

  /** The pending calls after `events`, starting from `start`. */
  function PendingAfter(start: seq<ToolCallRequestInfo>, events: seq<StreamEvent>, codec: Codec, promptId: string)
    : seq<ToolCallRequestInfo>
    decreases |events|
  {
    if events == [] then start
    else
      var p := PendingAfter(start, events[..|events| - 1], codec, promptId);
      match events[|events| - 1]
      case ToolCallDelta(id, name, argumentsDelta) => PendingStep(p, id, name, argumentsDelta, codec, promptId)
      case _ => p
  }

  /** The parse of the latest non-empty fragment for `id` that parses. */
  function LastParsed(events: seq<StreamEvent>, id: string, codec: Codec): Option<Json>
    decreases |events|
  {
    if events == [] then None
    else
      var last := events[|events| - 1];
      if last.ToolCallDelta? && last.toolCallId == id && Truthy(last.argumentsDelta) &&
         codec.parse(last.argumentsDelta.value).Some?
      then codec.parse(last.argumentsDelta.value)
      else LastParsed(events[..|events| - 1], id, codec)
  }

  // ---- turn events ----

  /** One `ToolCallRequest` per pending call, in order. */
  function Requests(pending: seq<ToolCallRequestInfo>): (es: seq<TurnEvent>)
    ensures |es| == |pending|
    ensures forall k :: 0 <= k < |pending| ==> es[k] == ToolCallRequestEvent(pending[k])
  {
    seq(|pending|, k requires 0 <= k < |pending| => ToolCallRequestEvent(pending[k]))
  }

  /** `processStreamEvent`, with `pending` the calls gathered so far. */
  function StepEvents(e: StreamEvent, pending: seq<ToolCallRequestInfo>): seq<TurnEvent> {
    match e
    case ContentDelta(delta, traceId) => [ContentEvent(delta, traceId)]
    case ToolCallDelta(_, _, _) => []
    case Thought(thought) => [ThoughtEvent(thought)]
    case UsageUpdate(u) => [UsageEvent(u)]
    case Done(_) => Requests(pending)
  }

  /** The turn events of `events` before the end of the turn. */
  function TurnEventsOf(start: seq<ToolCallRequestInfo>, events: seq<StreamEvent>, codec: Codec, promptId: string)
    : seq<TurnEvent>
    decreases |events|
  {
    if events == [] then []
    else
      var init := events[..|events| - 1];
      TurnEventsOf(start, init, codec, promptId) + StepEvents(events[|events| - 1], PendingAfter(start, init, codec, promptId))
  }

  /** The reason a finished turn reports: the last `done`, else one left by an earlier run, else `Stop`. */
  function FinalReason(events: seq<StreamEvent>, earlier: Option<FinishReason>): FinishReason {
    match LastFinish(events)
    case Some(r) => r
    case None => earlier.GetOr(Stop)
  }

  /** Whether the signal is aborted when the turn looks at position `i` (event `i`, or the end of the
      stream when `i` is its length). */
  predicate AbortedAt(abortAt: Option<nat>, i: nat) {
    abortAt.Some? && abortAt.value <= i
  }

  /** The event that ends a turn: nothing after an abort, `Finished` after a complete stream, `Error`
      after a throw. */
  function Ending(s: AdapterStream, abortAt: Option<nat>, earlier: Option<FinishReason>): seq<TurnEvent> {
    if ClosedEarly(s, abortAt) then []
    else if s.failure.Some? then
      if AbortedAt(abortAt, |s.events|) then []
      else [ErrorEvent(MessageOf(s.failure.value), ExtractStatus(s.failure.value))]
    else [FinishedEvent(FinalReason(s.events, earlier), LastUsage(s.events))]
  }

  /** The number of events a turn processes: up to the one at which it sees the abort. */
  function Processed(s: AdapterStream, abortAt: Option<nat>): (n: nat)
    ensures n <= |s.events|
  {
    if ClosedEarly(s, abortAt) then abortAt.value else |s.events|
  }

  /** One more event, as the folds see it. */
  lemma TurnStep(start: seq<ToolCallRequestInfo>, init: seq<StreamEvent>, e: StreamEvent, codec: Codec, promptId: string)
    ensures TurnEventsOf(start, init + [e], codec, promptId) ==
              TurnEventsOf(start, init, codec, promptId) + StepEvents(e, PendingAfter(start, init, codec, promptId))
    ensures PendingAfter(start, init + [e], codec, promptId) ==
              (if e.ToolCallDelta? then PendingStep(PendingAfter(start, init, codec, promptId), e.toolCallId, e.name, e.argumentsDelta, codec, promptId)
               else PendingAfter(start, init, codec, promptId))
  {
    assert (init + [e])[..|init|] == init;
  }

  // ---- what the pending calls hold ----

  /** Call `c` is the table's entry for `id`: its name (or `'unknown'`) and the latest arguments
      that parsed. */
  ghost predicate CallMatches(c: ToolCallRequestInfo, id: string, t: Table, events: seq<StreamEvent>, codec: Codec, promptId: string)
  {
    c.callId == id && id in t.entries &&
    c.name == NameOr(t.entries[id].name).GetOr("unknown") &&
    c.args == LastParsed(events, id, codec).GetOr(EmptyObject) &&
    c.promptId == promptId
  }

  /** `pending` lists the calls of table `t` in its order. */
  ghost predicate MatchesTable(p: seq<ToolCallRequestInfo>, t: Table, events: seq<StreamEvent>, codec: Codec, promptId: string)
  {
    |p| == |t.order| &&
    forall k :: 0 <= k < |p| ==> CallMatches(p[k], t.order[k], t, events, codec, promptId)
  }

  /** An id never seen has no parsed arguments. */
  lemma {:induction false} LastParsedUnseen(events: seq<StreamEvent>, id: string, codec: Codec)
    requires id !in IdsOf(events)
    ensures LastParsed(events, id, codec).None?
    decreases |events|
  {
    if events != [] {
      LastParsedUnseen(events[..|events| - 1], id, codec);
    }
  }

  /** A fresh turn's pending calls follow the table `collectStreamResponse` builds from the same events. */
  lemma {:induction false} PendingTracksTable(events: seq<StreamEvent>, codec: Codec, promptId: string)
    ensures MatchesTable(PendingAfter([], events, codec, promptId), TableOf(events), events, codec, promptId)
    decreases |events|
  {
    if events != [] {
      var init := events[..|events| - 1];
      var last := events[|events| - 1];
      assert events == init + [last];
      PendingTracksTable(init, codec, promptId);
      var p := PendingAfter([], init, codec, promptId);
      var t := TableOf(init);
      if last.ToolCallDelta? {
        PendingStepTracks(p, t, init, last, codec, promptId);
      } else {
        forall x ensures LastParsed(events, x, codec) == LastParsed(init, x, codec) {
        }
      }
    }
  }

  /** `handleToolCallDelta` and the table's record step keep the two in step. */
  lemma PendingStepTracks(p: seq<ToolCallRequestInfo>, t: Table, init: seq<StreamEvent>, last: StreamEvent, codec: Codec, promptId: string)
    requires last.ToolCallDelta? && t == TableOf(init)
    requires MatchesTable(p, t, init, codec, promptId)
    ensures MatchesTable(PendingStep(p, last.toolCallId, last.name, last.argumentsDelta, codec, promptId),
                         Record(t, last.toolCallId, last.name, last.argumentsDelta), init + [last], codec, promptId)
  {
    var events := init + [last];
    assert events[..|events| - 1] == init;
    forall x | x != last.toolCallId ensures LastParsed(events, x, codec) == LastParsed(init, x, codec) {
    }
    assert LastParsed(events, last.toolCallId, codec).GetOr(EmptyObject) ==
           ParsedArgs(LastParsed(init, last.toolCallId, codec).GetOr(EmptyObject), last.argumentsDelta, codec);
    if last.toolCallId in t.entries {
      KnownCallTracks(p, t, init, last, codec, promptId);
    } else {
      TableOfDescribes(init);
      LastParsedUnseen(init, last.toolCallId, codec);
      NewCallTracks(p, t, init, last, codec, promptId);
    }
  }

  /** A delta for a call already pending updates that call in place. */
  lemma KnownCallTracks(p: seq<ToolCallRequestInfo>, t: Table, init: seq<StreamEvent>, last: StreamEvent, codec: Codec, promptId: string)
    requires last.ToolCallDelta? && Valid(t) && last.toolCallId in t.entries
    requires MatchesTable(p, t, init, codec, promptId)
    requires forall x :: x != last.toolCallId ==> LastParsed(init + [last], x, codec) == LastParsed(init, x, codec)
    requires LastParsed(init + [last], last.toolCallId, codec).GetOr(EmptyObject) ==
             ParsedArgs(LastParsed(init, last.toolCallId, codec).GetOr(EmptyObject), last.argumentsDelta, codec)
    ensures MatchesTable(PendingStep(p, last.toolCallId, last.name, last.argumentsDelta, codec, promptId),
                         Record(t, last.toolCallId, last.name, last.argumentsDelta), init + [last], codec, promptId)
  {
    var id := last.toolCallId;
    var k :| 0 <= k < |t.order| && t.order[k] == id;
    assert CallMatches(p[k], id, t, init, codec, promptId);
    forall j | 0 <= j < k ensures p[j].callId != id {
      assert CallMatches(p[j], t.order[j], t, init, codec, promptId);
    }
    FindCallAt(p, id, k);
    var q := PendingStep(p, id, last.name, last.argumentsDelta, codec, promptId);
    var u := Record(t, id, last.name, last.argumentsDelta);
    forall j | 0 <= j < |q| ensures CallMatches(q[j], u.order[j], u, init + [last], codec, promptId) {
      KnownCallEntry(p, t, init, last, codec, promptId, k, j);
    }
  }

  /** One call after a delta for the known call at `k`. */
  lemma KnownCallEntry(p: seq<ToolCallRequestInfo>, t: Table, init: seq<StreamEvent>, last: StreamEvent, codec: Codec,
                       promptId: string, k: nat, j: nat)
    requires last.ToolCallDelta? && Valid(t) && k < |t.order| && t.order[k] == last.toolCallId
    requires MatchesTable(p, t, init, codec, promptId) && j < |p|
    requires FindCall(p, last.toolCallId) == Some(k)
    requires j != k ==> LastParsed(init + [last], t.order[j], codec) == LastParsed(init, t.order[j], codec)
    requires LastParsed(init + [last], last.toolCallId, codec).GetOr(EmptyObject) ==
             ParsedArgs(LastParsed(init, last.toolCallId, codec).GetOr(EmptyObject), last.argumentsDelta, codec)
    ensures var q := PendingStep(p, last.toolCallId, last.name, last.argumentsDelta, codec, promptId);
            var u := Record(t, last.toolCallId, last.name, last.argumentsDelta);
            |q| == |u.order| && CallMatches(q[j], u.order[j], u, init + [last], codec, promptId)
  {
    assert CallMatches(p[j], t.order[j], t, init, codec, promptId);
    if j != k {
      assert t.order[j] != last.toolCallId;
    }
  }

  /** A delta for a new call appends it. */
  lemma NewCallTracks(p: seq<ToolCallRequestInfo>, t: Table, init: seq<StreamEvent>, last: StreamEvent, codec: Codec, promptId: string)
    requires last.ToolCallDelta? && Valid(t) && last.toolCallId !in t.entries
    requires MatchesTable(p, t, init, codec, promptId)
    requires forall x :: x != last.toolCallId ==> LastParsed(init + [last], x, codec) == LastParsed(init, x, codec)
    requires LastParsed(init + [last], last.toolCallId, codec).GetOr(EmptyObject) ==
             ParsedArgs(EmptyObject, last.argumentsDelta, codec)
    ensures MatchesTable(PendingStep(p, last.toolCallId, last.name, last.argumentsDelta, codec, promptId),
                         Record(t, last.toolCallId, last.name, last.argumentsDelta), init + [last], codec, promptId)
  {
    var id := last.toolCallId;
    assert FindCall(p, id).None? by {
      forall j | 0 <= j < |p| ensures p[j].callId != id {
        assert CallMatches(p[j], t.order[j], t, init, codec, promptId);
      }
    }
    var q := PendingStep(p, id, last.name, last.argumentsDelta, codec, promptId);
    var u := Record(t, id, last.name, last.argumentsDelta);
    forall j | 0 <= j < |q| ensures CallMatches(q[j], u.order[j], u, init + [last], codec, promptId) {
      if j < |p| {
        assert CallMatches(p[j], t.order[j], t, init, codec, promptId);
      }
    }
  }

  /** What a fresh turn requests on `done`: one call per distinct id in order of first arrival, named
      by the last non-empty name announced (else `'unknown'`), with the latest arguments that parsed
      (else `{}`). */
  lemma PendingDescribes(events: seq<StreamEvent>, codec: Codec, promptId: string)
    ensures var p := PendingAfter([], events, codec, promptId);
            var ids := seq(|p|, k requires 0 <= k < |p| => p[k].callId);
            FirstSeenOrder(ids, IdsOf(events)) &&
            forall k :: 0 <= k < |p| ==>
              p[k].name == LastName(events, p[k].callId).GetOr("unknown") &&
              p[k].args == LastParsed(events, p[k].callId, codec).GetOr(EmptyObject) &&
              p[k].promptId == promptId
  {
    PendingTracksTable(events, codec, promptId);
    TableOfDescribes(events);
    var p := PendingAfter([], events, codec, promptId);
    assert seq(|p|, k requires 0 <= k < |p| => p[k].callId) == TableOf(events).order;
  }

  // ---- how a turn ends ----

  /** Mapping stream events never yields `Finished` or `Error`: those come only from `Ending`. */
  lemma {:induction false} NoTerminalEvents(start: seq<ToolCallRequestInfo>, events: seq<StreamEvent>, codec: Codec, promptId: string)
    ensures forall j :: 0 <= j < |TurnEventsOf(start, events, codec, promptId)| ==>
              !TurnEventsOf(start, events, codec, promptId)[j].FinishedEvent? &&
              !TurnEventsOf(start, events, codec, promptId)[j].ErrorEvent?
    decreases |events|
  {
    if events != [] {
      NoTerminalEvents(start, events[..|events| - 1], codec, promptId);
    }
  }

  /** Only the last event of a turn can be `Finished` or `Error`, and it is one exactly when the
      turn was not aborted: `Finished` when the stream completed, `Error` when it threw. */
  lemma EndingRule(s: AdapterStream, abortAt: Option<nat>, earlier: Option<FinishReason>,
                   start: seq<ToolCallRequestInfo>, codec: Codec, promptId: string)
    ensures var out := TurnEventsOf(start, s.events[..Processed(s, abortAt)], codec, promptId) + Ending(s, abortAt, earlier);
            (forall j :: 0 <= j < |out| - 1 ==> !out[j].FinishedEvent? && !out[j].ErrorEvent?) &&
            (out != [] && out[|out| - 1].FinishedEvent? <==> !ClosedEarly(s, abortAt) && s.failure.None?) &&
            (out != [] && out[|out| - 1].ErrorEvent? <==>
               !ClosedEarly(s, abortAt) && s.failure.Some? && !AbortedAt(abortAt, |s.events|))
  {
    var body := TurnEventsOf(start, s.events[..Processed(s, abortAt)], codec, promptId);
    NoTerminalEvents(start, s.events[..Processed(s, abortAt)], codec, promptId);
    var ending := Ending(s, abortAt, earlier);
    assert |ending| <= 1;
    if ending == [] {
      assert body + ending == body;
    }
  }

  /** `UnifiedTurn` */
  class UnifiedTurn {
    const chat: UnifiedChat
    const promptId: string
    var pendingToolCalls: seq<ToolCallRequestInfo>
    var finishReason: Option<FinishReason>

    constructor(chat: UnifiedChat, promptId: string)
      ensures this.chat == chat && this.promptId == promptId
      ensures pendingToolCalls == [] && finishReason.None?
    {
      this.chat := chat;
      this.promptId := promptId;
      pendingToolCalls := [];
      finishReason := None;
    }

    /** `handleToolCallDelta` */
    method HandleToolCallDelta(id: string, name: Option<string>, argumentsDelta: Option<string>, codec: Codec)
      modifies this
      ensures pendingToolCalls == PendingStep(old(pendingToolCalls), id, name, argumentsDelta, codec, promptId)
      ensures finishReason == old(finishReason)
    {
      var found := FindCall(pendingToolCalls, id);
      var k: nat;
      if found.None? {
        var toolCall := ToolCallRequestInfo(id, if Truthy(name) then name.value else "unknown", EmptyObject, promptId);
        pendingToolCalls := pendingToolCalls + [toolCall];
        k := |pendingToolCalls| - 1;
      } else {
        k := found.value;
      }
      if Truthy(name) {
        pendingToolCalls := pendingToolCalls[k := pendingToolCalls[k].(name := name.value)];
      }
      if Truthy(argumentsDelta) {
        var parsed := codec.parse(argumentsDelta.value);
        if parsed.Some? {
          pendingToolCalls := pendingToolCalls[k := pendingToolCalls[k].(args := parsed.value)];
        }
      }
    }

    /** `processStreamEvent` */
    method ProcessStreamEvent(event: StreamEvent, codec: Codec) returns (out: seq<TurnEvent>)
      modifies this
      ensures out == StepEvents(event, old(pendingToolCalls))
      ensures pendingToolCalls ==
                if event.ToolCallDelta? then PendingStep(old(pendingToolCalls), event.toolCallId, event.name, event.argumentsDelta, codec, promptId)
                else old(pendingToolCalls)
      ensures finishReason == old(finishReason)
    {
      match event {
        case ContentDelta(delta, traceId) =>
          out := [ContentEvent(delta, traceId)];
        case ToolCallDelta(id, name, argumentsDelta) =>
          HandleToolCallDelta(id, name, argumentsDelta, codec);
          out := [];
        case Thought(thought) =>
          out := [ThoughtEvent(thought)];
        case UsageUpdate(u) =>
          out := [UsageEvent(u)];
        case Done(_) =>
          out := [];
          for k := 0 to |pendingToolCalls|
            invariant out == Requests(pendingToolCalls)[..k]
          {
            assert Requests(pendingToolCalls)[..k + 1] == Requests(pendingToolCalls)[..k] + [ToolCallRequestEvent(pendingToolCalls[k])];
            out := out + [ToolCallRequestEvent(pendingToolCalls[k])];
          }
          assert Requests(pendingToolCalls)[..|pendingToolCalls|] == Requests(pendingToolCalls);
      }
    }

    /** `run`. The session streams the reply; `abortAt` is the position at which the signal is first
        seen aborted (`None`: never). The turn maps each event, stops silently at an abort, and ends
        with one `Finished` after a complete stream or one `Error` after a throw (silent if the
        signal is aborted by then). */
    method Run(model: string, message: seq<ContentPart>, options: SendMessageOptions,
               open: GenerateRequest -> AdapterStream, abortAt: Option<nat>, codec: Codec)
      returns (out: seq<TurnEvent>)
      modifies this, chat.history
      ensures var s := open(old(chat.RequestFor(model, options, chat.history.messages + [UserMessage(message)])));
              var n := Processed(s, abortAt);
              out == TurnEventsOf(old(pendingToolCalls), s.events[..n], codec, promptId) + Ending(s, abortAt, old(finishReason)) &&
              pendingToolCalls == PendingAfter(old(pendingToolCalls), s.events[..n], codec, promptId) &&
              finishReason == (if LastFinish(s.events[..n]).Some? then LastFinish(s.events[..n]) else old(finishReason)) &&
              chat.history.messages == StreamHistory(old(chat.history.messages), UserMessage(message), s, abortAt, codec)
    {
      ghost var s := open(chat.RequestFor(model, options, chat.history.messages + [UserMessage(message)]));
      var yielded, thrown := chat.SendMessageStream(model, message, options, open, abortAt, codec);
      var usage, stopped;
      out, usage, stopped := ProcessEvents(yielded, abortAt, codec);
      assert yielded[..Processed(s, abortAt)] == s.events[..Processed(s, abortAt)];
      if stopped {
        return;
      }
      assert yielded == s.events;
      if thrown.Some? {
        if abortAt.Some? && abortAt.value <= |yielded| {
          return;
        }
        out := out + [ErrorEvent(MessageOf(thrown.value), ExtractStatus(thrown.value))];
        return;
      }
      assert !ClosedEarly(s, abortAt) && s.failure.None? && Processed(s, abortAt) == |s.events|;
      assert s.events[..|s.events|] == s.events;
      out := out + [FinishedEvent(if finishReason.Some? then finishReason.value else Stop, usage)];
    }

    /** The event loop of `run`: each event is mapped until the one at which the signal is seen
        aborted, recording the last usage and finish reason. */
    method ProcessEvents(yielded: seq<StreamEvent>, abortAt: Option<nat>, codec: Codec)
      returns (out: seq<TurnEvent>, usage: Option<Usage>, stopped: bool)
      modifies this
      ensures stopped == (abortAt.Some? && abortAt.value < |yielded|)
      ensures var n := if stopped then abortAt.value else |yielded|;
              out == TurnEventsOf(old(pendingToolCalls), yielded[..n], codec, promptId) &&
              pendingToolCalls == PendingAfter(old(pendingToolCalls), yielded[..n], codec, promptId) &&
              finishReason == (if LastFinish(yielded[..n]).Some? then LastFinish(yielded[..n]) else old(finishReason)) &&
              usage == LastUsage(yielded[..n])
    {
      ghost var start := pendingToolCalls;
      ghost var earlier := finishReason;
      usage := None;
      out := [];
      var i := 0;
      while i < |yielded|
        invariant 0 <= i <= |yielded|
        invariant out == TurnEventsOf(start, yielded[..i], codec, promptId)
        invariant pendingToolCalls == PendingAfter(start, yielded[..i], codec, promptId)
        invariant finishReason == (if LastFinish(yielded[..i]).Some? then LastFinish(yielded[..i]) else earlier)
        invariant usage == LastUsage(yielded[..i])
        invariant abortAt.None? || i <= abortAt.value
      {
        if abortAt.Some? && abortAt.value <= i {
          stopped := true;
          return;
        }
        var event := yielded[i];
        assert yielded[..i + 1] == yielded[..i] + [event];
        TurnStep(start, yielded[..i], event, codec, promptId);
        CollectStep(yielded[..i], event);
        var events := ProcessStreamEvent(event, codec);
        out := out + events;
        if event.UsageUpdate? {
          usage := Some(event.usage);
        }
        if event.Done? {
          finishReason := Some(event.finishReason);
        }
        i := i + 1;
      }
      assert yielded[..i] == yielded;
      stopped := false;
    }
  }
}

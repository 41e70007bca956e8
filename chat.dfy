/** The conversation session (packages/core/src/llm/chat/chat.ts). The provider adapter is a
    parameter of each call: `generate` for `generateContent`, `open` for the stream of
    `generateContentStream`. */
module Chat {
  import opened Wrappers
  import opened Json
  import opened Strings
  import opened MessageTypes
  import opened StreamTypes
  import opened ToolTypes
  import opened Errors
  import opened History
  import opened ToolCallTable
  import opened StreamProcessor
  import opened AdapterInterface

  /** `ChatOptions` */
  datatype ChatOptions = ChatOptions(
    systemInstruction: Option<string>,
    history: Option<seq<Message>>,
    tools: Option<seq<ToolSchema>>,
    toolChoice: Option<ToolChoice>,
    temperature: Option<real>,
    maxTokens: Option<real>)

  /** `SendMessageOptions` */
  datatype SendMessageOptions = SendMessageOptions(
    temperature: Option<real>,
    maxTokens: Option<real>,
    toolChoice: Option<ToolChoice>,
    responseFormat: Option<ResponseFormat>,
    responseSchema: Option<map<string, Json>>)

  const NoSendOptions: SendMessageOptions := SendMessageOptions(None, None, None, None, None)

  /** `a ?? b` */
  function Coalesce<T>(a: Option<T>, b: Option<T>): (r: Option<T>)
    ensures a.Some? ==> r == a
    ensures a.None? ==> r == b
  {
    if a.Some? then a else b
  }

  /** The user message a turn starts with. */
  function UserMessage(content: seq<ContentPart>): Message {
    Message(UserRole, content, None)
  }

  /** The assistant message built after a stream: nothing when its content would be empty. */
  function StreamReply(events: seq<StreamEvent>, codec: Codec): seq<Message> {
    var content := ReplyContent(ContentText(events), Materialized(TableOf(events), codec));
    if content == [] then [] else [Message(AssistantRole, content, None)]
  }

  /** Whether the consumer closes the stream: it stops after receiving event `closeAt`. */
  predicate ClosedEarly(s: AdapterStream, closeAt: Option<nat>) {
    closeAt.Some? && closeAt.value < |s.events|
  }

  /** The events the consumer receives. */
  function Received(s: AdapterStream, closeAt: Option<nat>): (r: seq<StreamEvent>)
    ensures |r| <= |s.events|
  {
    if ClosedEarly(s, closeAt) then s.events[..closeAt.value + 1] else s.events
  }

  /** The history after `sendMessageStream`: a closed stream leaves the user message in place and adds
      nothing; a throw takes the user message back out; a complete stream adds its reply. */
  function StreamHistory(h: seq<Message>, user: Message, s: AdapterStream, closeAt: Option<nat>, codec: Codec): seq<Message> {
    if ClosedEarly(s, closeAt) then h + [user]
    else if s.failure.Some? then h
    else h + [user] + StreamReply(s.events, codec)
  }

  /** The reply of a finished stream is at most one assistant message. There is none exactly when no
      content delta carried text and no tool-call delta arrived. Otherwise its text projection is the
      deltas concatenated in order. It has one tool call per distinct call id, in order of first
      arrival, named by the last non-empty name sent for that id (or `'unknown'`), whose arguments are
      the parse of all that id's fragments concatenated (or `{}`). */
  lemma StreamReplyRule(events: seq<StreamEvent>, codec: Codec)
    ensures |StreamReply(events, codec)| <= 1
    ensures StreamReply(events, codec) == [] <==> ContentText(events) == "" && IdsOf(events) == []
    ensures StreamReply(events, codec) != [] ==>
              var m := StreamReply(events, codec)[0];
              var calls := ExtractToolCalls(m);
              var ids := TableOf(events).order;
              m.role == AssistantRole && m.metadata.None? &&
              ExtractText(m) == ContentText(events) &&
              FirstSeenOrder(ids, IdsOf(events)) && |calls| == |ids| &&
              forall k :: 0 <= k < |calls| ==>
                calls[k].id == ids[k] &&
                calls[k].name == LastName(events, ids[k]).GetOr("unknown") &&
                calls[k].arguments == ParseOr(codec, ArgsOf(events, ids[k]), EmptyObject)
  {
    StreamReplyShape(events, codec);
    MaterializedRule(events, codec);
  }

  /** The reply, in terms of the collected text and the materialized tool-call table. */
  lemma StreamReplyShape(events: seq<StreamEvent>, codec: Codec)
    ensures |StreamReply(events, codec)| <= 1
    ensures StreamReply(events, codec) == [] <==> ContentText(events) == "" && IdsOf(events) == []
    ensures StreamReply(events, codec) != [] ==>
              var m := StreamReply(events, codec)[0];
              m.role == AssistantRole && m.metadata.None? &&
              ExtractText(m) == ContentText(events) &&
              ExtractToolCalls(m) == Materialized(TableOf(events), codec)
  {
    var calls := Materialized(TableOf(events), codec);
    ReplyContentProjections(ContentText(events), calls);
    OrderEmptyIff(events);
  }

  /** `UnifiedChat` */
  class UnifiedChat {
    const history: ChatHistory
    var systemInstruction: string
    var tools: seq<ToolSchema>
    var toolChoice: ToolChoice
    var defaultTemperature: Option<real>
    var defaultMaxTokens: Option<real>

    /** The field initialisation of the constructor: `|| ''`, `|| []` and `|| 'auto'` defaults. */
    constructor(options: ChatOptions)
      ensures fresh(history)
      ensures history.messages == options.history.GetOr([])
      ensures systemInstruction == options.systemInstruction.GetOr("")
      ensures tools == options.tools.GetOr([])
      ensures toolChoice == options.toolChoice.GetOr(AutoChoice)
      ensures defaultTemperature == options.temperature && defaultMaxTokens == options.maxTokens
    {
      history := new ChatHistory(options.history);
      systemInstruction := options.systemInstruction.GetOr("");
      tools := options.tools.GetOr([]);
      toolChoice := options.toolChoice.GetOr(AutoChoice);
      defaultTemperature := options.temperature;
      defaultMaxTokens := options.maxTokens;
    }

    /** `new UnifiedChat(adapter, options)`: the object is built, then a given history is validated;
        a failed validation throws, so no session comes out. */
    static method Create(options: ChatOptions) returns (r: Result<UnifiedChat, string>)
      ensures r.Failure? <==> options.history.Some? && Validation(options.history.value).Fail?
      ensures r.Failure? ==> r.error == Validation(options.history.value).error
      ensures r.Success? ==>
                fresh(r.value) && fresh(r.value.history) &&
                r.value.history.messages == options.history.GetOr([]) &&
                r.value.systemInstruction == options.systemInstruction.GetOr("") &&
                r.value.tools == options.tools.GetOr([]) &&
                r.value.toolChoice == options.toolChoice.GetOr(AutoChoice) &&
                r.value.defaultTemperature == options.temperature && r.value.defaultMaxTokens == options.maxTokens
    {
      var chat := new UnifiedChat(options);
      if options.history.Some? {
        var v := ValidateHistory(options.history.value);
        if v.Fail? {
          return Failure(v.error);
        }
      }
      r := Success(chat);
    }

    method SetSystemInstruction(instruction: string)
      modifies this
      ensures systemInstruction == instruction
      ensures tools == old(tools) && toolChoice == old(toolChoice)
      ensures defaultTemperature == old(defaultTemperature) && defaultMaxTokens == old(defaultMaxTokens)
    {
      systemInstruction := instruction;
    }

    function GetSystemInstruction(): (s: string)
      reads this
      ensures s == systemInstruction
    {
      systemInstruction
    }

    method SetTools(newTools: seq<ToolSchema>)
      modifies this
      ensures tools == newTools
      ensures systemInstruction == old(systemInstruction) && toolChoice == old(toolChoice)
      ensures defaultTemperature == old(defaultTemperature) && defaultMaxTokens == old(defaultMaxTokens)
    {
      tools := newTools;
    }

    function GetTools(): (t: seq<ToolSchema>)
      reads this
      ensures t == tools
    {
      tools
    }

    /** The request `buildRequest` makes from history `h`: the curated history; the system
        instruction and the tools only when non-empty; per-call options before the session defaults
        (`??`); the response format and schema of the call. */
    function RequestFor(model: string, options: SendMessageOptions, h: seq<Message>): (r: GenerateRequest)
      reads this
      ensures r.model == model && r.messages == Curated(h)
      ensures r.systemInstruction.None? <==> systemInstruction == ""
      ensures r.systemInstruction.Some? ==> r.systemInstruction.value == systemInstruction
      ensures r.tools.None? <==> tools == []
      ensures r.tools.Some? ==> r.tools.value == tools
      ensures r.toolChoice == Some(options.toolChoice.GetOr(toolChoice))
      ensures r.temperature == (if options.temperature.Some? then options.temperature else defaultTemperature)
      ensures r.maxTokens == (if options.maxTokens.Some? then options.maxTokens else defaultMaxTokens)
      ensures r.topP.None? && r.topK.None? && r.stopSequences.None?
      ensures r.responseFormat == options.responseFormat && r.responseSchema == options.responseSchema
    {
      GenerateRequest(
        model, Curated(h),
        if systemInstruction != "" then Some(systemInstruction) else None,
        if |tools| > 0 then Some(tools) else None,
        Coalesce(options.toolChoice, Some(toolChoice)),
        Coalesce(options.temperature, defaultTemperature),
        Coalesce(options.maxTokens, defaultMaxTokens),
        None, None, None,
        options.responseFormat, options.responseSchema)
    }

    /** `buildRequest` */
    method BuildRequest(model: string, options: SendMessageOptions) returns (r: GenerateRequest)
      ensures r == RequestFor(model, options, history.messages)
    {
      var messages := history.GetCurated();
      r := GenerateRequest(
        model, messages,
        if systemInstruction != "" then Some(systemInstruction) else None,
        if |tools| > 0 then Some(tools) else None,
        Some(if options.toolChoice.Some? then options.toolChoice.value else toolChoice),
        if options.temperature.Some? then options.temperature else defaultTemperature,
        if options.maxTokens.Some? then options.maxTokens else defaultMaxTokens,
        None, None, None,
        options.responseFormat, options.responseSchema);
    }

    /** `sendMessage`: the user message goes into the history before the request is built; a reply
        is appended after it, and a throw takes the user message back out and is passed on. */
    method SendMessage(model: string, message: seq<ContentPart>, options: SendMessageOptions,
                       generate: GenerateRequest -> Result<GenerateResponse, Thrown>)
      returns (r: Result<GenerateResponse, Thrown>)
      modifies history
      ensures r == generate(RequestFor(model, options, old(history.messages) + [UserMessage(message)]))
      ensures r.Success? ==> history.messages == old(history.messages) + [UserMessage(message), r.value.message]
      ensures r.Failure? ==> history.messages == old(history.messages)
    {
      var userMessage := Message(UserRole, message, None);
      history.Add(userMessage);
      var request := BuildRequest(model, options);
      var response := generate(request);
      match response {
        case Success(reply) =>
          history.Add(reply.message);
          r := Success(reply);
        case Failure(error) =>
          RemoveLastRule(history.messages, 1);
          var _ := history.RemoveLast(None);
          r := Failure(error);
      }
    }

    /** `sendMessageStream`. Every event is passed on as it arrives; `closeAt` is the event after
        which the consumer stops iterating, closing the generator at that `yield`. A complete stream
        appends its reply; a throw takes the user message back out and is passed on (`thrown`). */
    method SendMessageStream(model: string, message: seq<ContentPart>, options: SendMessageOptions,
                             open: GenerateRequest -> AdapterStream, closeAt: Option<nat>, codec: Codec)
      returns (yielded: seq<StreamEvent>, thrown: Option<Thrown>)
      modifies history
      ensures var s := open(RequestFor(model, options, old(history.messages) + [UserMessage(message)]));
              yielded == Received(s, closeAt) &&
              thrown == (if ClosedEarly(s, closeAt) then None else s.failure) &&
              history.messages == StreamHistory(old(history.messages), UserMessage(message), s, closeAt, codec)
    {
      var userMessage := Message(UserRole, message, None);
      history.Add(userMessage);
      var request := BuildRequest(model, options);
      var stream := open(request);
      var currentText, toolCalls, closed;
      yielded, currentText, toolCalls, closed := ConsumeStream(stream.events, closeAt);
      if closed {
        return yielded, None;
      }
      if stream.failure.Some? {
        RemoveLastRule(history.messages, 1);
        var _ := history.RemoveLast(None);
        return yielded, stream.failure;
      }
      var responseContent := BuildReply(currentText, toolCalls, codec);
      if |responseContent| > 0 {
        history.Add(Message(AssistantRole, responseContent, None));
      }
      thrown := None;
    }

    /** `addToolResult(toolCallId, result, isError = false)` */
    method AddToolResult(toolCallId: string, result: seq<ContentPart>, isError: Option<bool>)
      modifies history
      ensures history.messages ==
                old(history.messages) + [Message(ToolRole, [ToolResultPart(ToolResult(toolCallId, result, isError.GetOr(false)))], None)]
    {
      history.Add(Message(ToolRole, [ToolResultPart(ToolResult(toolCallId, result, isError.GetOr(false)))], None));
    }

    /** `getHistory(curated = false)` */
    method GetHistory(curated: Option<bool>) returns (r: seq<Message>)
      ensures r == if curated.GetOr(false) then Curated(history.messages) else history.messages
    {
      if curated.GetOr(false) {
        r := history.GetCurated();
      } else {
        r := history.GetAll();
      }
    }

    method ClearHistory()
      modifies history
      ensures history.messages == []
    {
      history.Clear();
    }

    /** `setHistory`: validation first; a failed validation throws and leaves the history alone. */
    method SetHistory(messages: seq<Message>) returns (r: Outcome<string>)
      modifies history
      ensures r == Validation(messages)
      ensures r.Pass? ==> history.messages == messages
      ensures r.Fail? ==> history.messages == old(history.messages)
    {
      r := ValidateHistory(messages);
      if r.Pass? {
        history.SetMessages(messages);
      }
    }
  }

  /** The `for await` loop of `sendMessageStream`: text and tool-call fragments accumulate, and each
      event is yielded; `closed` reports that the consumer stopped after event `closeAt`. */
  method ConsumeStream(events: seq<StreamEvent>, closeAt: Option<nat>)
    returns (yielded: seq<StreamEvent>, currentText: string, toolCalls: Table, closed: bool)
    ensures closed == (closeAt.Some? && closeAt.value < |events|)
    ensures yielded == if closed then events[..closeAt.value + 1] else events
    ensures !closed ==> currentText == ContentText(events) && toolCalls == TableOf(events)
  {
    currentText := "";
    toolCalls := EmptyTable;
    yielded := [];
    var i := 0;
    while i < |events|
      invariant 0 <= i <= |events|
      invariant yielded == events[..i]
      invariant currentText == ContentText(events[..i])
      invariant toolCalls == TableOf(events[..i])
      invariant closeAt.Some? ==> closeAt.value >= i
    {
      var event := events[i];
      assert events[..i + 1] == events[..i] + [event];
      CollectStep(events[..i], event);
      match event {
        case ContentDelta(delta, _) =>
          currentText := currentText + delta;
        case ToolCallDelta(id, name, argumentsDelta) =>
          toolCalls := RecordDelta(toolCalls, id, name, argumentsDelta);
        case _ =>
      }
      yielded := yielded + [event];
      if closeAt == Some(i) {
        return yielded, currentText, toolCalls, true;
      }
      i := i + 1;
    }
    assert events[..i] == events;
    closed := false;
  }

  /** The content built after the loop: the text, when non-empty, then one tool call per table
      entry. */
  method BuildReply(currentText: string, toolCalls: Table, codec: Codec) returns (content: seq<ContentPart>)
    requires Valid(toolCalls)
    ensures content == ReplyContent(currentText, Materialized(toolCalls, codec))
  {
    var calls := BuildToolCalls(toolCalls, codec);
    content := [];
    if currentText != "" {
      content := content + [TextPart(currentText)];
    }
    content := PushToolCalls(content, calls);
  }

  /** The request of a send carries the new user message: curation keeps every user and tool
      message, so the request's user and tool messages are the old history's followed by it. */
  lemma RequestCarriesUserMessage(h: seq<Message>, content: seq<ContentPart>)
    ensures UserAndTool(Curated(h + [UserMessage(content)])) == UserAndTool(h) + [UserMessage(content)]
  {
    CuratedKeepsUserAndTool(h + [UserMessage(content)]);
    UserAndToolAppend(h, [UserMessage(content)]);
    assert [UserMessage(content)][1..] == [];
  }
}

/** The request building and response conversion of the Gemini adapter
    (packages/core/src/llm/adapters/gemini/adapter.ts). The SDK calls themselves are not modelled. */
module GeminiAdapter {
  import opened Wrappers
  import opened Json
  import opened Strings
  import opened MessageTypes
  import opened StreamTypes
  import opened ToolTypes
  import opened GeminiTypes
  import opened Converter
  import opened StreamProcessor
  import opened AdapterInterface

  const FallbackModel: string := "gemini-2.0-flash"

  /** `request.model || this.config.defaultModel || 'gemini-2.0-flash'` */
  function ChooseModel(requestModel: string, defaultModel: Option<string>): (model: string)
    ensures requestModel != "" ==> model == requestModel
    ensures requestModel == "" && Truthy(defaultModel) ==> model == defaultModel.value
    ensures requestModel == "" && !Truthy(defaultModel) ==> model == FallbackModel
  {
    if requestModel != "" then requestModel
    else if Truthy(defaultModel) then defaultModel.value
    else FallbackModel
  }

  /** `buildTools`: nothing for absent or empty tools, otherwise a single tool declaring every schema,
      in order. */
  function BuildTools(request: GenerateRequest): (r: Option<seq<Tool>>)
    ensures r.None? <==> request.tools.None? || request.tools.value == []
    ensures r.Some? ==>
              |r.value| == 1 && |r.value[0].functionDeclarations| == |request.tools.value| &&
              forall k :: 0 <= k < |request.tools.value| ==>
                r.value[0].functionDeclarations[k] == ToGeminiFunctionDeclaration(request.tools.value[k])
  {
    match request.tools
    case None => None
    case Some(tools) =>
      if tools == [] then None
      else Some([Tool(seq(|tools|, k requires 0 <= k < |tools| => ToGeminiFunctionDeclaration(tools[k])))])
  }

  /** Gemini's `functionCallingConfig`. */
  datatype FunctionCallingConfig = FunctionCallingConfig(mode: string, allowedFunctionNames: Option<seq<string>>)

  /** The generation config `buildGenerateConfig` fills, one optional field per key it may set; an
      unset key is `None`. */
  datatype GenerateConfig = GenerateConfig(
    temperature: Option<real>,
    maxOutputTokens: Option<real>,
    topP: Option<real>,
    topK: Option<real>,
    stopSequences: Option<seq<string>>,
    responseMimeType: Option<string>,
    responseSchema: Option<map<string, Json>>,
    toolConfig: Option<FunctionCallingConfig>)

  const EmptyConfig: GenerateConfig := GenerateConfig(None, None, None, None, None, None, None, None)

  /** Whether the tool choice leads to a `toolConfig`: `'auto'` is the default and sets none, and a
      named choice needs a non-empty name. */
  predicate SetsToolConfig(choice: Option<ToolChoice>) {
    match choice
    case None => false
    case Some(AutoChoice) => false
    case Some(NoneChoice) => true
    case Some(RequiredChoice) => true
    case Some(NamedChoice(name)) => name != ""
  }

  /** `buildGenerateConfig`: each sampling key is set exactly when the request defines it, to the
      request's value (`maxTokens` under the name `maxOutputTokens`); a JSON response format sets the
      MIME type and, when given, the schema; `'none'` sets mode `NONE`, `'required'` mode `ANY`, a
      non-empty name mode `ANY` restricted to that function, and `'auto'` or no choice no tool config. */
  method BuildGenerateConfig(request: GenerateRequest) returns (config: GenerateConfig)
    ensures config.temperature == request.temperature
    ensures config.maxOutputTokens == request.maxTokens
    ensures config.topP == request.topP
    ensures config.topK == request.topK
    ensures config.stopSequences == request.stopSequences
    ensures config.responseMimeType.Some? <==> request.responseFormat == Some(JsonFormat)
    ensures config.responseMimeType.Some? ==> config.responseMimeType.value == "application/json"
    ensures config.responseSchema.Some? <==> request.responseFormat == Some(JsonFormat) && request.responseSchema.Some?
    ensures config.responseSchema.Some? ==> config.responseSchema == request.responseSchema
    ensures config.toolConfig.Some? <==> SetsToolConfig(request.toolChoice)
    ensures request.toolChoice == Some(NoneChoice) ==> config.toolConfig == Some(FunctionCallingConfig("NONE", None))
    ensures request.toolChoice == Some(RequiredChoice) ==> config.toolConfig == Some(FunctionCallingConfig("ANY", None))
    ensures request.toolChoice.Some? && request.toolChoice.value.NamedChoice? && request.toolChoice.value.name != "" ==>
              config.toolConfig == Some(FunctionCallingConfig("ANY", Some([request.toolChoice.value.name])))
  {
    config := SetSampling(EmptyConfig, request);
    config := SetResponseFormat(config, request);
    config := SetToolConfig(config, request.toolChoice);
  }

  /** The five `if (request.x !== undefined) config[key] = request.x` statements. */
  method SetSampling(config: GenerateConfig, request: GenerateRequest) returns (r: GenerateConfig)
    ensures r == config.(temperature := if request.temperature.Some? then request.temperature else config.temperature,
                         maxOutputTokens := if request.maxTokens.Some? then request.maxTokens else config.maxOutputTokens,
                         topP := if request.topP.Some? then request.topP else config.topP,
                         topK := if request.topK.Some? then request.topK else config.topK,
                         stopSequences := if request.stopSequences.Some? then request.stopSequences else config.stopSequences)
  {
    r := config;
    if request.temperature.Some? {
      r := r.(temperature := Some(request.temperature.value));
    }
    if request.maxTokens.Some? {
      r := r.(maxOutputTokens := Some(request.maxTokens.value));
    }
    if request.topP.Some? {
      r := r.(topP := Some(request.topP.value));
    }
    if request.topK.Some? {
      r := r.(topK := Some(request.topK.value));
    }
    if request.stopSequences.Some? {
      r := r.(stopSequences := Some(request.stopSequences.value));
    }
  }

  /** The `responseFormat === 'json'` block. */
  method SetResponseFormat(config: GenerateConfig, request: GenerateRequest) returns (r: GenerateConfig)
    ensures request.responseFormat != Some(JsonFormat) ==> r == config
    ensures request.responseFormat == Some(JsonFormat) ==>
              r == config.(responseMimeType := Some("application/json"),
                           responseSchema := if request.responseSchema.Some? then request.responseSchema else config.responseSchema)
  {
    r := config;
    if request.responseFormat == Some(JsonFormat) {
      r := r.(responseMimeType := Some("application/json"));
      if request.responseSchema.Some? {
        r := r.(responseSchema := Some(request.responseSchema.value));
      }
    }
  }

  /** The tool-choice block; `'auto'` is the default and sets nothing. */
  method SetToolConfig(config: GenerateConfig, choice: Option<ToolChoice>) returns (r: GenerateConfig)
    ensures !SetsToolConfig(choice) ==> r == config
    ensures choice == Some(NoneChoice) ==> r == config.(toolConfig := Some(FunctionCallingConfig("NONE", None)))
    ensures choice == Some(RequiredChoice) ==> r == config.(toolConfig := Some(FunctionCallingConfig("ANY", None)))
    ensures choice.Some? && choice.value.NamedChoice? && choice.value.name != "" ==>
              r == config.(toolConfig := Some(FunctionCallingConfig("ANY", Some([choice.value.name]))))
  {
    r := config;
    if choice.Some? {
      match choice.value
      case NoneChoice =>
        r := r.(toolConfig := Some(FunctionCallingConfig("NONE", None)));
      case RequiredChoice =>
        r := r.(toolConfig := Some(FunctionCallingConfig("ANY", None)));
      case NamedChoice(name) =>
        if name != "" {
          r := r.(toolConfig := Some(FunctionCallingConfig("ANY", Some([name]))));
        }
      case AutoChoice =>
    }
  }

  /** The response metadata of `convertResponse`: the text of the first thought part whenever that
      part has a `text` key (even an empty one), and a non-empty response id. */
  function ResponseMetadata(response: Response): (m: map<string, Json>)
    ensures m.Keys <= {"thought", "responseId"}
    ensures "thought" in m <==> FirstThought(FirstCandidateParts(response)).Some? &&
                                FirstThought(FirstCandidateParts(response)).value.text.Some?
    ensures "thought" in m ==> m["thought"] == JStr(FirstThought(FirstCandidateParts(response)).value.text.value)
    ensures "responseId" in m <==> Truthy(response.responseId)
    ensures "responseId" in m ==> m["responseId"] == JStr(response.responseId.value)
  {
    var thought := FirstThought(FirstCandidateParts(response));
    var withThought := if thought.Some? && thought.value.text.Some?
                       then map["thought" := JStr(thought.value.text.value)] else map[];
    if Truthy(response.responseId) then withThought["responseId" := JStr(response.responseId.value)]
    else withThought
  }

  /** `convertResponse`. The `k`-th extracted tool call takes its generated id (if any) from `stamp(k)`. */
  method ConvertResponse(response: Response, stamp: nat -> string) returns (r: GenerateResponse)
    ensures r.message.role == AssistantRole
    ensures r.message.content ==
              ReplyContent(ExtractTextFromGeminiParts(FirstCandidateParts(response)),
                           ExtractToolCallsFromGeminiParts(FirstCandidateParts(response), stamp))
    ensures r.finishReason ==
              if Truthy(FirstFinishReason(response)) then MapGeminiFinishReason(FirstFinishReason(response).value)
              else Stop
    ensures r.usage.Some? <==> response.usageMetadata.Some?
    ensures r.usage.Some? ==> r.usage.value == UsageOf(response.usageMetadata.value)
    ensures r.metadata == ResponseMetadata(response)
    ensures r.message.metadata == if r.metadata != map[] then Some(r.metadata) else None
  {
    var parts := FirstCandidateParts(response);
    var text := ExtractTextFromGeminiParts(parts);
    var toolCalls := ExtractToolCallsFromGeminiParts(parts, stamp);
    var content: seq<ContentPart> := [];
    if text != "" {
      content := content + [TextPart(text)];
    }
    content := PushToolCalls(content, toolCalls);
    var metadata: map<string, Json> := map[];
    var thoughtPart := FirstThought(parts);
    if thoughtPart.Some? && thoughtPart.value.text.Some? {
      metadata := metadata["thought" := JStr(thoughtPart.value.text.value)];
    }
    if Truthy(response.responseId) {
      metadata := metadata["responseId" := JStr(response.responseId.value)];
    }
    var finishReason := FirstFinishReason(response);
    var reason := if Truthy(finishReason) then MapGeminiFinishReason(finishReason.value) else Stop;
    var usage := match response.usageMetadata
      case Some(u) => Some(Usage(u.promptTokenCount.GetOr(0), u.candidatesTokenCount.GetOr(0), u.totalTokenCount.GetOr(0)))
      case None => None;
    r := GenerateResponse(Message(AssistantRole, content, if |metadata| > 0 then Some(metadata) else None),
                          reason, usage, metadata);
  }

  /** The converted message carries exactly the visible text and the extracted tool calls of the first
      candidate: its text projection is that text, its tool-call projection those calls, it has tool
      calls iff some part is a function call, and its content is empty iff there is neither. */
  lemma ConvertedMessageProjections(response: Response, stamp: nat -> string, m: Message)
    requires m.role == AssistantRole
    requires m.content == ReplyContent(ExtractTextFromGeminiParts(FirstCandidateParts(response)),
                                       ExtractToolCallsFromGeminiParts(FirstCandidateParts(response), stamp))
    ensures ExtractText(m) == ExtractTextFromGeminiParts(FirstCandidateParts(response))
    ensures ExtractToolCalls(m) == ExtractToolCallsFromGeminiParts(FirstCandidateParts(response), stamp)
    ensures HasToolCalls(m) <==> FunctionCallsOf(FirstCandidateParts(response)) != []
    ensures m.content == [] <==>
              ExtractTextFromGeminiParts(FirstCandidateParts(response)) == "" && FunctionCallsOf(FirstCandidateParts(response)) == []
  {
    var parts := FirstCandidateParts(response);
    var text := ExtractTextFromGeminiParts(parts);
    var calls := ExtractToolCallsFromGeminiParts(parts, stamp);
    ReplyContentProjections(text, calls);
    assert ExtractText(m) == ExtractText(Message(AssistantRole, ReplyContent(text, calls), None));
    assert ExtractToolCalls(m) == ExtractToolCalls(Message(AssistantRole, ReplyContent(text, calls), None));
    HasToolCallsIffExtracted(m);
    ExtractedToolCalls(parts, stamp);
  }
}

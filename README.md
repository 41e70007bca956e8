# A verified model of the ai-cli LLM abstraction layer

This project models the provider-neutral LLM layer of `packages/core/src/llm` in Dafny, together with the
slash-command dispatcher of the command line client, and proves properties of the model.

- **Unified data model.** Messages, content parts, tool schemas and stream events. It includes the message
  predicates and projections, and the total map from Gemini finish-reason strings to the unified reasons.
- **Chat history.** The `ChatHistory` class whose methods update its message list in place. It includes the
  curation rule: user and tool messages are kept, system messages are dropped, and a run of consecutive
  assistant messages is kept whole only if every message in it is valid. It also includes history
  validation and system-message extraction.
- **The Gemini adapter.**
  - Role and part conversion in both directions.
  - Function responses.
  - The request configuration.
  - The conversion of a whole response.
  - The per-chunk event rule of `processGeminiStream`.
  - The fold of `collectStreamResponse`. Text is concatenated. Tool calls are keyed by id in first-seen
    order. The last usage and the last finish reason win.
- **Chat sessions and turns.**
  - `UnifiedChat`: building a request from the curated history, appending the reply, and taking the
    user message back out when the adapter throws.
  - `UnifiedTurn`: mapping stream events to turn events. It accumulates pending tool calls and flushes
    one request per call on each `done`. A turn then ends with exactly one `Finished`, exactly one
    `Error`, or silence when it is aborted.
- **Errors and retry.**
  - The `UnifiedLLMError` taxonomy and its retryable flags.
  - Classification of thrown values by HTTP status.
  - The bounded attempt loop of `retryWithBackoff` with its capped exponential backoff.
  - Abort errors.
- **Registry and commands.** The `ProviderRegistry` map and `CommandManager.handleInput`.

Everything the code cannot see is a parameter of the model:
- the adapter's answer or event stream, which may end in a throw;
- `JSON.parse`/`JSON.stringify` (the `Codec` record);
- `Date.now`/`Math.random` identifiers (the `stamp` functions);
- the jitter drawn from `Math.random`;
- the moment an abort signal is first seen set;
- the point at which a consumer stops iterating a stream;
- the result of running a command.

Sequences stand for asynchronous generators: a stream is the list of events it yields, plus an optional
throw at the end. The file layout follows the source: one module per source file, plus three small
support modules (`Wrappers`, `Strings`, `Json`).

## Model

| member | source | states |
|---|---|---|
| MessageTypes.CreateTextMessage | packages/core/src/llm/types/message.ts:123-131 | the message has the given role and no metadata, and its content is exactly one text part holding the text; its text projection is exactly the given text and it carries no tool calls; it is valid iff the text is non-empty |
| MessageTypes.CreateUserMessage | packages/core/src/llm/types/message.ts:133-135 | a text message with the user role whose text projection is the given text |
| MessageTypes.CreateAssistantMessage | packages/core/src/llm/types/message.ts:140-142 | a text message with the assistant role whose text projection is the given text |
| MessageTypes.SinglePart | packages/core/src/llm/types/message.ts:147-161 | a single part contributes its text only when it is a text part, and its tool call only when it is a tool-call part |
| MessageTypes.TextsOfAppend | packages/core/src/llm/types/message.ts:147-152 | the text parts of concatenated content are those of each half, in order |
| MessageTypes.ToolCallsOfAppend | packages/core/src/llm/types/message.ts:157-161 | the tool calls of concatenated content are those of each half, in order |
| MessageTypes.ExtractTextConcatenates | packages/core/src/llm/types/message.ts:147-152 | the text of a message is the in-order concatenation of its text parts; other parts add nothing |
| MessageTypes.ExtractToolCallsInOrder | packages/core/src/llm/types/message.ts:157-161 | the extracted calls are exactly the payloads of the tool-call parts, no more of them than parts, and in content order (the calls of any prefix come before those of the rest) |
| MessageTypes.HasToolCallsIffExtracted | packages/core/src/llm/types/message.ts:157-168 | `hasToolCalls` holds iff the extracted tool calls are non-empty |
| MessageTypes.SomePartValidIff | packages/core/src/llm/types/message.ts:173-190 | the part scan succeeds iff some part satisfies its type's rule (non-empty text, image data or url, audio or file data, tool call with id and name, tool result with an id) |
| MessageTypes.ValidityOfJoinedContent | packages/core/src/llm/types/message.ts:173-190 | a message with no content is never valid; a message is valid iff some part of its content is valid, whichever half of the content it lies in |
| StreamTypes.GuardsClassify | packages/core/src/llm/types/stream.ts:94-110 | the three type guards are mutually exclusive, and all three are false exactly on usage and thought events |
| StreamTypes.ContentTextAppend | packages/core/src/llm/types/stream.ts:115-125 | the collected text of concatenated streams is the concatenation of their texts |
| StreamTypes.ContentTextIgnoresOthers | packages/core/src/llm/types/stream.ts:115-125 | a stream without content deltas collects the empty text |
| StreamTypes.CollectStreamText | packages/core/src/llm/types/stream.ts:115-125 | the loop returns the in-order concatenation of the content deltas |
| StreamTypes.MapGeminiFinishReason | packages/core/src/llm/types/stream.ts:130-149 | the map is total. `MAX_TOKENS` maps to Length, the three safety strings to ContentFilter, and `MALFORMED_FUNCTION_CALL` to Error; in each case, in both directions. Any other string containing `TOOL` or `FUNCTION` maps to ToolCalls. Everything else, `STOP` included, maps to Stop |
| ToolTypes.CreateToolSchema | packages/core/src/llm/types/tool.ts:60-74 | name and description are kept; the parameters are the object `{type: 'object', properties, required}`, where `required` is present only when given and no other key appears |
| ToolTypes.CreatedSchemaValidity | packages/core/src/llm/types/tool.ts:60-88 | a schema built by `createToolSchema` is valid iff its name is non-empty |
| ToolTypes.ValidityRejectsScalars | packages/core/src/llm/types/tool.ts:80-88 | validity does not depend on the description text, and a schema whose parameters are null or a scalar is invalid |
| Strings.ParseIntToString | packages/core/src/llm/utils/errors.ts:199 | `parseInt(String(n), 10)` gives back `n` for every integer |
| Strings.ParseIntOfDigits | packages/core/src/llm/utils/errors.ts:199 | `parseInt` of a non-empty decimal digit string is the value of its digits |
| Json.ParseOr | packages/core/src/llm/chat/chat.ts:200-205 | parsing with a fallback gives the parse when it succeeds and the fallback when it fails |
| Errors.PlainError | packages/core/src/llm/utils/retry.ts:120 | `new Error(message)` is an Error instance named `Error` carrying the message |
| Errors.SubclassRetryability | packages/core/src/llm/utils/errors.ts:29-151 | of the subclasses, only `RateLimitError` is retryable |
| Errors.NewUnifiedLLMError | packages/core/src/llm/utils/errors.ts:11-24 | the base error keeps its message, code, provider, retryable flag and original error |
| Errors.NewProviderNotFoundError | packages/core/src/llm/utils/errors.ts:29-39 | not retryable, and carries the provider id |
| Errors.NewAuthenticationError | packages/core/src/llm/utils/errors.ts:44-53 | not retryable; the message defaults to `Authentication failed` |
| Errors.NewRateLimitError | packages/core/src/llm/utils/errors.ts:58-68 | retryable and carries `retryAfter`; the message defaults to `Rate limit exceeded` |
| Errors.NewUnsupportedOperationError | packages/core/src/llm/utils/errors.ts:73-87 | not retryable |
| Errors.NewModelNotAvailableError | packages/core/src/llm/utils/errors.ts:92-107 | not retryable |
| Errors.NewContentFilterError | packages/core/src/llm/utils/errors.ts:112-127 | not retryable, and carries the filter reason |
| Errors.NewContextLengthExceededError | packages/core/src/llm/utils/errors.ts:132-151 | not retryable, and carries both token counts |
| Errors.IsRetryableError | packages/core/src/llm/utils/errors.ts:156-166 | a unified error answers with its own flag; any other value is retryable iff it has a numeric `status` equal to 429 or in [500, 600); `statusCode` is never looked at |
| Errors.CreateUnifiedError | packages/core/src/llm/utils/errors.ts:171-208 | a unified error comes back unchanged. Otherwise the result keeps the provider, the message and the original. The status is read from `status`, else from `statusCode`. Status 401/403 gives an authentication error, in both directions. Status 429 gives a rate-limit error, in both directions; its `retryAfter` is the header's `parseInt` times 1000 when the header is truthy. Any other status gives `UNKNOWN_ERROR`, which is retryable iff the status is in [500, 600) |
| Errors.WrappingAgreesWithRetryRule | packages/core/src/llm/utils/errors.ts:156-208 | when `status` is present or `statusCode` is absent, the wrapped error's flag equals `isRetryableError`; an error with only `statusCode: 503`, by contrast, is wrapped retryable but is itself not retryable |
| Errors.WrapIdempotent | packages/core/src/llm/utils/errors.ts:175-177 | wrapping an already wrapped error, for any provider, changes nothing |
| Errors.RegistryProviderNotFoundError | packages/core/src/llm/errors.ts:23-28 | the registry's error is a plain Error named `ProviderNotFoundError`, not a unified error, and so is not retryable |
| Delays.CreateAbortError | packages/core/src/llm/utils/delay.ts:32-36 | the error is named `AbortError`, has the message `The operation was aborted`, and is recognised by `isAbortError` |
| Delays.AbortErrorNeedsName | packages/core/src/llm/utils/delay.ts:41-43 | `isAbortError` holds exactly for Error instances named `AbortError`; non-Errors and other names are rejected |
| Delays.UnifiedErrorsAreNotAbortErrors | packages/core/src/llm/utils/delay.ts:41-43 | no unified error is taken for an abort error |
| Delays.Delay | packages/core/src/llm/utils/delay.ts:10-27 | an already-aborted signal rejects with an abort error and schedules no timer; otherwise a timer of `ms` is scheduled; the delay resolves iff the signal is absent or never aborts, and a rejection is always an abort error |
| Retry.MergeOptions | packages/core/src/llm/utils/retry.ts:30-34 | the missing options default to 3 attempts, 5000 ms initial delay and 30000 ms maximum delay; `shouldRetryOnError` is passed through |
| Retry.JitteredBounds | packages/core/src/llm/utils/retry.ts:52-55 | with `Math.random()` in [0, 1) the jittered delay is never negative and lies within 30% of the capped delay |
| Retry.CappedAtMost | packages/core/src/llm/utils/retry.ts:50-52 | the exponential delay never exceeds the maximum |
| Retry.BackoffBounds | packages/core/src/llm/utils/retry.ts:44-56 | the backoff is never negative, is within 30% of `min(init * 2^attempt, max)`, and is at most 1.3 times the maximum |
| Retry.CappedDelayMonotone | packages/core/src/llm/utils/retry.ts:50-52 | the capped delay does not decrease from one attempt to the next |
| Retry.RunAttempt | packages/core/src/llm/utils/retry.ts:82-117 | one pass of the attempt loop decides exactly what the specification step decides |
| Retry.RetryWithBackoff | packages/core/src/llm/utils/retry.ts:73-121 | the loop's result, number of calls and waits are those of the recursive specification of the attempt sequence |
| Retry.WithRetry | packages/core/src/llm/utils/retry.ts:126-131 | the wrapped function behaves as `retryWithBackoff` over the function applied to its arguments |
| Retry.RetryCallBound | packages/core/src/llm/utils/retry.ts:82-117 | `fn` is called at most `maxAttempts` times; one wait separates consecutive calls; a success is never followed by a wait |
| Retry.RetryEarlierCallWasRetried | packages/core/src/llm/utils/retry.ts:91-102 | every call but the last threw an error that was not an abort error, came before the last attempt, and was accepted by `shouldRetry` |
| Retry.RetryEarlierWait | packages/core/src/llm/utils/retry.ts:107-115 | the wait after each call but the last is the rate-limit-or-backoff wait for that call's error |
| Retry.RetryLastCallDecides | packages/core/src/llm/utils/retry.ts:84-120 | the last call decides the outcome. A value is returned. An abort error is rethrown as is. An error not to be retried, or one from the last attempt, is thrown. Otherwise the run was cut off by an abort |
| Retry.RetryExhaustsAttempts | packages/core/src/llm/utils/retry.ts:82-120 | when every error is retried and nothing aborts, `fn` is called exactly `maxAttempts` times and the last error is thrown |
| Retry.RetryWithoutCalls | packages/core/src/llm/utils/retry.ts:84-86 | with `maxAttempts <= 0`, `Retry failed` is thrown without calling `fn`. When the signal is already aborted, a plain Error that `isAbortError` does not recognise is thrown without calling `fn` |
| Retry.WaitRule | packages/core/src/llm/utils/retry.ts:107-112 | a rate-limit error with a truthy `retryAfter` waits exactly that long; any other error waits a backoff in [0, 1.3 * max] |
| History.RemoveLastRule | packages/core/src/llm/chat/history.ts:82-84 | `splice(-n, n)` removes the last `min(n, length)` messages (none when `n <= 0`), in order, and keeps the prefix |
| History.ChatHistory.constructor | packages/core/src/llm/chat/history.ts:17-21 | the list equals the given messages, or is empty |
| History.ChatHistory.Add | packages/core/src/llm/chat/history.ts:26-28 | the message is appended and nothing else changes |
| History.ChatHistory.AddAll | packages/core/src/llm/chat/history.ts:33-35 | the messages are appended in order |
| History.ChatHistory.Clear | packages/core/src/llm/chat/history.ts:40-42 | the list becomes empty |
| History.ChatHistory.GetAll | packages/core/src/llm/chat/history.ts:47-49 | returns the list |
| History.ChatHistory.GetCurated | packages/core/src/llm/chat/history.ts:54-56 | returns the curated list |
| History.ChatHistory.SetMessages | packages/core/src/llm/chat/history.ts:61-63 | the list becomes the given messages |
| History.ChatHistory.GetLast | packages/core/src/llm/chat/history.ts:68-70 | the last message, or none for an empty list |
| History.ChatHistory.Length | packages/core/src/llm/chat/history.ts:75-77 | the number of messages |
| History.ChatHistory.RemoveLast | packages/core/src/llm/chat/history.ts:82-84 | the removed messages and the new list are the two halves of `splice(-n, n)` with `n` defaulting to 1 |
| History.CollectAssistantRun | packages/core/src/llm/chat/history.ts:116-126 | the inner loop collects exactly the maximal assistant run starting at `i`, and reports whether all of it is valid |
| History.ExtractCuratedHistory | packages/core/src/llm/chat/history.ts:100-139 | the loop computes the curated history |
| History.CuratedSplit | packages/core/src/llm/chat/history.ts:108-136 | curation distributes over a boundary that is not inside an assistant run |
| History.CuratedRunRule | packages/core/src/llm/chat/history.ts:115-131 | a maximal assistant run appears in the curated list in full iff all its messages are valid, and otherwise not at all |
| History.CuratedOfRun | packages/core/src/llm/chat/history.ts:115-131 | a list made of one assistant run curates to itself when all of it is valid, and to nothing otherwise |
| History.CuratedSelects | packages/core/src/llm/chat/history.ts:100-139 | the curated list is a subsequence of the input, selected message by message by a fixed keep rule |
| History.CuratedShape | packages/core/src/llm/chat/history.ts:100-139 | the empty history curates to the empty list, and no curated message is a system message or an invalid assistant message |
| History.CuratedIdempotent | packages/core/src/llm/chat/history.ts:100-139 | curating a curated history changes nothing |
| History.CuratedKeepsUserAndTool | packages/core/src/llm/chat/history.ts:111-114 | every user and tool message is kept, in order |
| History.ValidateHistory | packages/core/src/llm/chat/history.ts:144-150 | the loop computes the validation result |
| History.ValidationRule | packages/core/src/llm/chat/history.ts:144-150 | validation throws iff some role is outside user, assistant, system and tool, and its message names the first such role |
| History.FirstSystem | packages/core/src/llm/chat/history.ts:155-163 | the first system message's index, or none iff there is no system message |
| History.ExtractSystemMessage | packages/core/src/llm/chat/history.ts:155-163 | undefined iff there is no system message |
| History.SystemMessageIsFirst | packages/core/src/llm/chat/history.ts:155-163 | the result is the first system message's text parts joined with a newline |
| Converter.ToGeminiRole | packages/core/src/llm/adapters/gemini/converter.ts:27-40 | user, tool and unknown roles become `user`, and assistant becomes `model`, each in both directions; system, and only system, throws |
| Converter.FromGeminiRole | packages/core/src/llm/adapters/gemini/converter.ts:45-54 | `model` becomes assistant, and every other string becomes user |
| Converter.RoleRoundTrip | packages/core/src/llm/adapters/gemini/converter.ts:27-54 | user and assistant survive the round trip, tool comes back as user, and the strings `user` and `model` survive the reverse round trip |
| Converter.ToGeminiFunctionResponse | packages/core/src/llm/adapters/gemini/converter.ts:278-295 | an error result gives `{error: text \|\| 'Unknown error'}`; otherwise the parsed text, or `{result: text}` when parsing fails |
| Converter.FunctionResponseRoundTrip | packages/core/src/llm/adapters/gemini/converter.ts:278-295 | a successful result holding a stringified value gives back that value |
| Converter.ToGeminiPart | packages/core/src/llm/adapters/gemini/converter.ts:61-120 | conversion fails, with the image-part error, exactly for an image with neither data nor url; an image with data becomes inline data, and otherwise one with a url becomes file data |
| Converter.CallFromGemini | packages/core/src/llm/adapters/gemini/converter.ts:169-180 | the id is kept when truthy, else generated; the name defaults to `unknown` and is never empty; the arguments default to `{}` |
| Converter.MimeOr | packages/core/src/llm/adapters/gemini/converter.ts:137-163 | the MIME type falls back to `application/octet-stream` and is never empty |
| Converter.FromGeminiPart | packages/core/src/llm/adapters/gemini/converter.ts:125-196 | text gives a text part unless it is a thought, which gives null; inline data is classified by the MIME prefixes `image/` and `audio/`, else it is a file; file data becomes an image with a url; function calls and responses become tool calls and tool results; a part with none of these gives null |
| Converter.PartRoundTrip | packages/core/src/llm/adapters/gemini/converter.ts:61-196 | what `fromGeminiPart` gives back for each convertible part after `toGeminiPart`: text, and audio with an `audio/` MIME type, come back unchanged; an image with data comes back with its data and no url, one without data with only its url; a file loses its filename; a tool call keeps name and arguments but gets a generated id; a tool result comes back with its content replaced by the stringified function response and `isError` false |
| Converter.ToGeminiParts | packages/core/src/llm/adapters/gemini/converter.ts:204-206 | a content list converts iff every part does, part by part in order |
| Converter.ContentOfNonSystem | packages/core/src/llm/adapters/gemini/converter.ts:203-212 | a non-system message converts iff all its parts do, with role `user` or `model` |
| Converter.NonSystem | packages/core/src/llm/adapters/gemini/converter.ts:250-251 | the kept messages are exactly the non-system ones |
| Converter.ContentsOfNonSystem | packages/core/src/llm/adapters/gemini/converter.ts:249-253 | a list without system messages converts iff all messages do, into one content per message, in order |
| Converter.ToGeminiContentsRule | packages/core/src/llm/adapters/gemini/converter.ts:249-253 | system messages are dropped first, so the system-role error is never raised; the rest is converted in order |
| Converter.FirstThought | packages/core/src/llm/adapters/gemini/converter.ts:224-226 | the first thought part, or none iff no part is a thought |
| Converter.FirstSignature | packages/core/src/llm/adapters/gemini/converter.ts:232-237 | the first truthy thought signature, or none iff there is none |
| Converter.FromGeminiContent | packages/core/src/llm/adapters/gemini/converter.ts:217-244 | the role is assistant iff the content's role is `model`; the parts are converted in order; metadata, holding only `thought` and `thoughtSignature`, is set iff one was found; `thought` is present iff the first thought part has a non-empty text, and holds that text; `thoughtSignature` is present iff some part has a non-empty signature, and holds the first one |
| Converter.FromGeminiContents | packages/core/src/llm/adapters/gemini/converter.ts:258-260 | one message per content, in order |
| Converter.ToGeminiFunctionDeclaration | packages/core/src/llm/adapters/gemini/converter.ts:267-273 | name, description and parameters are copied |
| Converter.ExtractedToolCalls | packages/core/src/llm/adapters/gemini/converter.ts:312-324 | one call per function-call part, in order, with `unknown` and `{}` as defaults |
| Converter.ConvertedTextAgrees | packages/core/src/llm/adapters/gemini/converter.ts:302-307 | the text parts of the converted parts are the visible texts of the Gemini parts |
| Converter.ExtractTextOfConverted | packages/core/src/llm/adapters/gemini/converter.ts:217-244 | the text of a converted content equals the Gemini parts' visible texts joined with `''` |
| AdapterInterface.ToolCallPartsProjections | packages/core/src/llm/chat/chat.ts:199-214 | tool-call parts carry no text, and their tool calls are the given ones, in order |
| AdapterInterface.ReplyContentProjections | packages/core/src/llm/chat/chat.ts:196-221 | the reply content's text is the given text and its tool calls the given ones; it is empty iff both are empty; it has one text part exactly when the text is non-empty |
| AdapterInterface.PushToolCalls | packages/core/src/llm/adapters/gemini/adapter.ts:242-244 | appends one tool-call part per call, in order |
| GeminiTypes.FirstCandidateParts | packages/core/src/llm/adapters/gemini/adapter.ts:230-231 | the parts of the first candidate's content; none when there is no candidate, no content or no parts |
| GeminiAdapter.ChooseModel | packages/core/src/llm/adapters/gemini/adapter.ts:63 | the request's model, else the configured default, else `gemini-2.0-flash` |
| GeminiAdapter.BuildTools | packages/core/src/llm/adapters/gemini/adapter.ts:168-176 | undefined iff there are no tools; otherwise one tool with one declaration per schema, in order |
| GeminiAdapter.BuildGenerateConfig | packages/core/src/llm/adapters/gemini/adapter.ts:181-224 | each sampling key is set exactly when given, with `maxTokens` renamed to `maxOutputTokens`. The JSON format sets `application/json`, and the schema only when one is given. Tool choice `none` maps to `NONE`, `required` to `ANY`, and a named choice to `ANY` restricted to that name; `auto` sets no tool config |
| GeminiAdapter.SetSampling | packages/core/src/llm/adapters/gemini/adapter.ts:184-198 | only the defined sampling fields are written |
| GeminiAdapter.SetResponseFormat | packages/core/src/llm/adapters/gemini/adapter.ts:199-204 | nothing changes unless the format is JSON |
| GeminiAdapter.SetToolConfig | packages/core/src/llm/adapters/gemini/adapter.ts:207-221 | nothing changes unless a tool config is due; each choice writes its mode |
| GeminiAdapter.ResponseMetadata | packages/core/src/llm/adapters/gemini/adapter.ts:246-256 | the metadata holds at most `thought` and `responseId`; each is present exactly when its source is, with its value |
| GeminiAdapter.ConvertResponse | packages/core/src/llm/adapters/gemini/adapter.ts:229-282 | an assistant message whose content is the non-empty text, then the tool calls in order. The finish reason is mapped, or Stop when absent. Usage is present iff usage metadata is, with 0 for missing counts. The message metadata is unset when empty |
| GeminiAdapter.ConvertedMessageProjections | packages/core/src/llm/adapters/gemini/adapter.ts:238-244 | the converted message's text and tool calls are the response's, and it has tool calls iff some part is a function call |
| StreamProcessor.ProcessGeminiStream | packages/core/src/llm/adapters/gemini/stream-processor.ts:19-80 | the events yielded are the chunks' events concatenated in order |
| StreamProcessor.ProcessChunk | packages/core/src/llm/adapters/gemini/stream-processor.ts:22-79 | one chunk yields its specified events |
| StreamProcessor.YieldToolDeltas | packages/core/src/llm/adapters/gemini/stream-processor.ts:51-58 | one tool-call delta per call, in order |
| StreamProcessor.ThoughtChunk | packages/core/src/llm/adapters/gemini/stream-processor.ts:28-37 | a chunk with a non-empty thought yields exactly that thought and nothing else |
| StreamProcessor.ChunkOrder | packages/core/src/llm/adapters/gemini/stream-processor.ts:39-78 | any other chunk yields, in this order: one content delta exactly when its text is non-empty; one tool-call delta per function call; one usage event exactly when usage metadata is present; one done event exactly when a finish reason is present |
| StreamProcessor.ChunkText | packages/core/src/llm/adapters/gemini/stream-processor.ts:39-47 | the content delta comes first and carries the joined text and the response id |
| StreamProcessor.ChunkToolCalls | packages/core/src/llm/adapters/gemini/stream-processor.ts:49-58 | the deltas carry each call's id, name and stringified arguments, in order |
| StreamProcessor.ChunkUsage | packages/core/src/llm/adapters/gemini/stream-processor.ts:60-69 | the usage event carries the counters, with 0 for missing ones |
| StreamProcessor.ChunkDone | packages/core/src/llm/adapters/gemini/stream-processor.ts:71-78 | the done event comes last and carries the mapped reason |
| StreamProcessor.LastFinishIs | packages/core/src/llm/adapters/gemini/stream-processor.ts:132-134 | absent iff there is no done event; otherwise the reason of the last one |
| StreamProcessor.LastUsageIs | packages/core/src/llm/adapters/gemini/stream-processor.ts:124-130 | absent iff there is no usage event; otherwise the counters of the last one |
| StreamProcessor.ThoughtsOfAppend | packages/core/src/llm/adapters/gemini/stream-processor.ts:136-138 | thoughts are kept in arrival order |
| StreamProcessor.CollectStep | packages/core/src/llm/adapters/gemini/stream-processor.ts:104-140 | what one event does to each part of the fold |
| StreamProcessor.CollectStreamResponse | packages/core/src/llm/adapters/gemini/stream-processor.ts:88-158 | the concatenated text; the tool calls of the per-id table; the last done reason, or Stop; the last usage; the thoughts in order |
| ToolCallTable.Record | packages/core/src/llm/adapters/gemini/stream-processor.ts:110-122 | one tool-call delta keeps the table well formed |
| ToolCallTable.TableOfDescribes | packages/core/src/llm/adapters/gemini/stream-processor.ts:110-122 | the table lists the distinct ids in order of first arrival; each entry holds all that id's fragments concatenated in arrival order, and the last non-empty name |
| ToolCallTable.OrderEmptyIff | packages/core/src/llm/adapters/gemini/stream-processor.ts:110-122 | the table is empty iff no tool-call delta arrived |
| ToolCallTable.FirstSeenStep | packages/core/src/llm/adapters/gemini/stream-processor.ts:111-120 | adding an id only when it is new keeps the first-seen order |
| ToolCallTable.RecordDelta | packages/core/src/llm/adapters/gemini/stream-processor.ts:110-122 | one loop step updates the table as specified |
| ToolCallTable.BuildToolCalls | packages/core/src/llm/adapters/gemini/stream-processor.ts:143-155 | the loop builds the specified calls |
| ToolCallTable.CallOf | packages/core/src/llm/adapters/gemini/stream-processor.ts:143-155 | the id is kept; the name defaults to `unknown`; the arguments are the parse, or `{}` |
| ToolCallTable.MaterializedRule | packages/core/src/llm/adapters/gemini/stream-processor.ts:143-155 | one call per distinct id, in first-seen order with no duplicates, named by the last non-empty name (or `unknown`), with the parse of all fragments concatenated (or `{}`) |
| Chat.Coalesce | packages/core/src/llm/chat/chat.ts:295-297 | `a ?? b` |
| Chat.StreamReplyShape | packages/core/src/llm/chat/chat.ts:196-221 | at most one assistant message is appended, with no metadata; none exactly when there is no text and no tool call |
| Chat.StreamReplyRule | packages/core/src/llm/chat/chat.ts:179-221 | the reply's text is the deltas concatenated. Its tool calls follow first-seen id order, with the last non-empty name or `unknown`, and the parse of the concatenated fragments or `{}` |
| Chat.RequestCarriesUserMessage | packages/core/src/llm/chat/chat.ts:125-129 | the curated messages of the request keep every earlier user and tool message and end with the new user message |
| Chat.UnifiedChat.constructor | packages/core/src/llm/chat/chat.ts:67-76 | a fresh history holding the given messages; the instruction, tools and tool choice default to `''`, `[]` and `auto`; the default temperature and max tokens are kept |
| Chat.UnifiedChat.Create | packages/core/src/llm/chat/chat.ts:67-81 | construction fails iff a given history does not validate, with the validation's message; otherwise it is the constructed session |
| Chat.UnifiedChat.SetSystemInstruction | packages/core/src/llm/chat/chat.ts:86-88 | only the instruction changes |
| Chat.UnifiedChat.GetSystemInstruction | packages/core/src/llm/chat/chat.ts:93-95 | the instruction |
| Chat.UnifiedChat.SetTools | packages/core/src/llm/chat/chat.ts:100-102 | only the tools change |
| Chat.UnifiedChat.GetTools | packages/core/src/llm/chat/chat.ts:107-109 | the tools |
| Chat.UnifiedChat.RequestFor | packages/core/src/llm/chat/chat.ts:285-302 | the request holds the model and the curated history. An empty instruction and an empty tool list become undefined. The per-call tool choice, temperature and max tokens override the session's through `??`. The response format and schema are the call's |
| Chat.UnifiedChat.BuildRequest | packages/core/src/llm/chat/chat.ts:285-302 | the request built from the current history |
| Chat.UnifiedChat.SendMessage | packages/core/src/llm/chat/chat.ts:113-143 | the adapter gets the request over the history and the new user message. On success the history gains exactly that message and the response message, and the response is returned. On a throw the history is as before and the same error is passed on |
| Chat.ConsumeStream | packages/core/src/llm/chat/chat.ts:166-193 | every event is yielded unchanged and in order, up to where the consumer stops; a complete pass accumulates the text and the per-id table |
| Chat.BuildReply | packages/core/src/llm/chat/chat.ts:195-214 | the text part, then the materialised tool calls |
| Chat.UnifiedChat.SendMessageStream | packages/core/src/llm/chat/chat.ts:148-228 | the consumer receives the adapter's events unchanged. A complete stream appends the user message and its reply. A throw leaves the history as before and is passed on. A stream closed by its consumer keeps the user message and appends nothing |
| Chat.UnifiedChat.AddToolResult | packages/core/src/llm/chat/chat.ts:233-249 | one tool message with a single tool-result part holding the id, the content and `isError` (default false) |
| Chat.UnifiedChat.GetHistory | packages/core/src/llm/chat/chat.ts:254-256 | the curated or the raw history, raw by default |
| Chat.UnifiedChat.ClearHistory | packages/core/src/llm/chat/chat.ts:261-263 | the history becomes empty |
| Chat.UnifiedChat.SetHistory | packages/core/src/llm/chat/chat.ts:268-271 | the validation result; only a valid list replaces the history |
| Turn.ExtractStatus | packages/core/src/llm/chat/turn.ts:242-252 | a numeric `status` wins, then a numeric `statusCode`, else undefined; non-objects give undefined |
| Turn.ReportedStatusAgreesWithClassification | packages/core/src/llm/chat/turn.ts:242-252 | the reported status is the classifier's whenever `status` is absent or numeric; a non-numeric `status` beside a numeric `statusCode` is reported by the turn yet hides the code from `createUnifiedError` |
| Turn.FindCall | packages/core/src/llm/chat/turn.ts:212 | the first pending call with the id, or none iff there is none |
| Turn.Requests | packages/core/src/llm/chat/turn.ts:191-199 | one tool-call request per pending call, in order |
| Turn.TurnStep | packages/core/src/llm/chat/turn.ts:110-130 | one stream event appends its turn events and updates the pending calls |
| Turn.PendingTracksTable | packages/core/src/llm/chat/turn.ts:206-237 | the pending calls follow the per-id table: one per distinct id, in first-seen order |
| Turn.PendingDescribes | packages/core/src/llm/chat/turn.ts:206-237 | a fresh turn's pending calls list the distinct ids in first-seen order. Each is named by the last non-empty name, else `unknown`. Each holds the latest argument fragment that parsed on its own, else `{}`. Fragments are not concatenated |
| Turn.NoTerminalEvents | packages/core/src/llm/chat/turn.ts:158-201 | mapping stream events never yields `Finished` or `Error` |
| Turn.EndingRule | packages/core/src/llm/chat/turn.ts:111-152 | only the last turn event can be `Finished` or `Error`. It is `Finished` iff the stream completed without an abort. It is `Error` iff the stream threw and the signal was not aborted |
| Turn.UnifiedTurn.constructor | packages/core/src/llm/chat/turn.ts:85-91 | no pending calls and no finish reason |
| Turn.UnifiedTurn.HandleToolCallDelta | packages/core/src/llm/chat/turn.ts:206-237 | the pending calls take one specified step |
| Turn.UnifiedTurn.ProcessStreamEvent | packages/core/src/llm/chat/turn.ts:158-201 | content, thought and usage events map one to one with the same data; a tool-call delta emits nothing; a done event flushes one request per pending call |
| Turn.UnifiedTurn.ProcessEvents | packages/core/src/llm/chat/turn.ts:110-130 | the loop maps each event up to the abort, takes the last usage and keeps the last done reason |
| Turn.UnifiedTurn.Run | packages/core/src/llm/chat/turn.ts:93-153 | the turn events are the stream events mapped up to the abort. They are followed by `Finished` (last reason or Stop, last usage) after a complete stream, or by `Error` (message and status) after a throw; nothing follows when aborted. The chat history is the streamed session's |
| Registry.ProviderIds | packages/core/src/llm/registry.ts:11-13 | the ids of the registered adapters, in order |
| Registry.LastRegisteredFound | packages/core/src/llm/registry.ts:19-25 | an adapter is found iff its id was registered |
| Registry.KeyOrderIsFirstSeen | packages/core/src/llm/registry.ts:37-39 | map keys list each id once, in first-registration order |
| Registry.LatestIsLastRegistered | packages/core/src/llm/registry.ts:11-25 | the map holds an id iff it was registered, and then the last adapter registered under it |
| Registry.LatestKeys | packages/core/src/llm/registry.ts:30-39 | the map's keys are exactly the listed ids |
| Registry.RegisterStep | packages/core/src/llm/registry.ts:11-13 | one registration overwrites one key, and appends the id to the key order only when it is new |
| Registry.RegisterThenGet | packages/core/src/llm/registry.ts:11-25 | after registering an adapter, looking up its id gives it back, and every other id is unchanged |
| Registry.ProviderRegistry.constructor | packages/core/src/llm/registry.ts:6 | an empty registry |
| Registry.ProviderRegistry.Register | packages/core/src/llm/registry.ts:11-13 | the map overwrites the id's entry and keeps the other ids; a new id goes to the end of the key order |
| Registry.ProviderRegistry.Get | packages/core/src/llm/registry.ts:19-25 | the last adapter registered under the id, else a thrown `ProviderNotFoundError` |
| Registry.ProviderRegistry.Has | packages/core/src/llm/registry.ts:30-32 | true iff the id was registered |
| Registry.ProviderRegistry.List | packages/core/src/llm/registry.ts:37-39 | every registered id once, in first-registration order |
| Commands.Parts | packages/cli/src/commands/CommandManager.ts:25 | the split always has a first token |
| Commands.CommandName | packages/cli/src/commands/CommandManager.ts:25-26 | the name holds no whitespace, and it is empty iff nothing but whitespace follows the slash |
| Commands.CommandArgs | packages/cli/src/commands/CommandManager.ts:25-27 | every argument is a non-empty token without whitespace |
| Commands.SplitJoin | packages/cli/src/commands/CommandManager.ts:25 | splitting tokens joined by single spaces gives the tokens back |
| Commands.CommandLineRoundTrip | packages/cli/src/commands/CommandManager.ts:25-27 | `/` followed by a name and arguments separated by spaces, with any whitespace around, parses to that name and those arguments |
| Commands.CommandManager.constructor | packages/cli/src/commands/CommandManager.ts:9-12 | exactly `help` and `exit` are registered, under their names |
| Commands.RegisteredCommands | packages/cli/src/commands/CommandManager.ts:9-12 | only `help` and `exit` resolve to commands |
| Commands.CommandManager.HandleInput | packages/cli/src/commands/CommandManager.ts:17-46 | input is handled iff it starts with `/`. Otherwise no command runs. An unknown name is reported. A known command runs with the parsed arguments, and its throw is caught |

## Left out

- Network and SDK calls: `generateContent`, `generateContentStream`, `countTokens` and `embedContent` are not modelled. The adapter's answer is a parameter: a response or a thrown value, or a list of events that may end in a throw.
- Timers and clocks: `setTimeout` in `delay` and the waiting between retries are not modelled. A wait is recorded as its length in milliseconds, and an abort is given as the attempt or event at which it is first seen.
- Ids from `Date.now()` and `Math.random()` are parameters (`stamp`), and so is the jitter of the backoff.
- `JSON.parse` and `JSON.stringify` are a supplied `Codec`. JSON numbers are integers; floating point is not modelled. The sampling numbers of a request are passed through as `real`.
- Turn.UnifiedTurn.Run: the chat's generator and the turn's generator interleave; the model runs them one after the other. The point at which the turn stops iterating (the abort) closes the chat stream there, which both see alike.
- Turn.UnifiedTurn.Run: the `ToolCallRequest` objects yielded on `done` are the pending objects themselves, so later deltas still change them. The model yields value snapshots; that aliasing is not modelled.
- Chat.UnifiedChat.SendMessageStream: a consumer that stops iterating early leaves the user message in the history with no reply. The code does this too (there is no rollback outside the `catch`). The model states it and does not call it a defect.
- Chat.UnifiedChat.Create: the session's `adapter` field and `getAdapter` are not modelled. The adapter is passed to each send as a function.
- History.ChatHistory: `clone` and the copying with `[...messages]` are not modelled. Messages are values, so the stored list cannot alias the caller's.
- Errors.IsRetryableError: a `status` that is not a number is treated as outside every range. JavaScript's `>=` would coerce a numeric string such as `"503"`; that coercion is not modelled, and the same holds for Errors.CreateUnifiedError.
- Errors.CreateUnifiedError: a `retry-after` header that `parseInt` cannot read gives `NaN * 1000` in the code. The model gives an absent `retryAfter`, which the retry loop treats the same way (both are falsy).
- Strings.ParseInt: it handles leading whitespace, a sign and decimal digits. Hexadecimal prefixes and numbers too large for a double are not modelled.
- Commands.CommandManager.HandleInput: the console messages for unknown or failing commands are not modelled. The command's `run` is an opaque parameter, and the modelled outcome records whether it threw.
- The CLI user interface (`InputApp.tsx`, `MessageList.tsx`, `Spinner.tsx`, `index.tsx`), the examples, the global registry singleton and the factory functions (`createGeminiAdapter`, `createChat`) are outside this model.
- The `LLMAdapter` capabilities are plain booleans that no modelled code reads.

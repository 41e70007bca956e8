/** Conversion between the unified message model and Gemini's wire types
    (packages/core/src/llm/adapters/gemini/converter.ts). A thrown `Error` is a `Failure` carrying its
    message. `JSON.parse` / `JSON.stringify` are the host's `Codec`; the `Date.now()`/`Math.random()`
    suffix of a generated tool-call id is an opaque `stamp`. */
module Converter {
  import opened Wrappers
  import opened Strings
  import opened Json
  import opened MessageTypes
  import opened ToolTypes
  import opened GeminiTypes

  const SystemRoleError: string := "System messages should be passed via systemInstruction"
  const ImagePartError: string := "Image part must have either data or url"
  const DefaultMimeType: string := "application/octet-stream"

  // ---- roles ----

  /** `toGeminiRole`: user and tool messages travel as `'user'`, assistant messages as `'model'`;
      a system message throws; a role outside the four falls to `'user'`. */
  function ToGeminiRole(role: Role): (r: Result<string, string>)
    ensures r == Success("user") <==> role.UserRole? || role.ToolRole? || role.OtherRole?
    ensures r == Success("model") <==> role.AssistantRole?
    ensures r.Failure? <==> role.SystemRole?
    ensures r.Failure? ==> r.error == SystemRoleError
  {
    match role
    case UserRole => Success("user")
    case ToolRole => Success("user")
    case AssistantRole => Success("model")
    case SystemRole => Failure(SystemRoleError)
    case OtherRole(_) => Success("user")
  }

  /** `fromGeminiRole`: `'model'` is the assistant, every other string the user. */
  function FromGeminiRole(role: string): (r: Role)
    ensures r.AssistantRole? <==> role == "model"
    ensures r.UserRole? <==> role != "model"
  {
    if role == "model" then AssistantRole else UserRole
  }

  /** The role mapping round-trips on user and assistant, folds tool into user, and is the identity
      on the two Gemini role names. */
  lemma RoleRoundTrip(r: Role, s: string)
    ensures (r.UserRole? || r.AssistantRole?) ==> FromGeminiRole(ToGeminiRole(r).value) == r
    ensures r.ToolRole? ==> FromGeminiRole(ToGeminiRole(r).value) == UserRole
    ensures (s == "user" || s == "model") ==> ToGeminiRole(FromGeminiRole(s)) == Success(s)
  {
  }

  // ---- tool results ----

  /** The text of a tool result: its text parts joined with newlines. */
  function ResultText(result: ToolResult): string {
    Join(TextsOf(result.content), "\n")
  }

  /** `toGeminiFunctionResponse`: an error result becomes `{error: text || 'Unknown error'}`; any other
      result is its text parsed as JSON, or `{result: text}` when that text does not parse. */
  function ToGeminiFunctionResponse(result: ToolResult, codec: Codec): (r: Json)
    ensures result.isError ==>
              r == JObj(map["error" := JStr(if ResultText(result) != "" then ResultText(result) else "Unknown error")])
    ensures !result.isError && codec.parse(ResultText(result)).Some? ==> r == codec.parse(ResultText(result)).value
    ensures !result.isError && codec.parse(ResultText(result)).None? ==> r == JObj(map["result" := JStr(ResultText(result))])
  {
    var textContent := ResultText(result);
    if result.isError then
      JObj(map["error" := JStr(if textContent != "" then textContent else "Unknown error")])
    else
      ParseOr(codec, textContent, JObj(map["result" := JStr(textContent)]))
  }

  /** A successful tool result holding the serialisation of a value is sent as that value, when the
      host's JSON codec reads back what it writes. */
  lemma FunctionResponseRoundTrip(codec: Codec, v: Json, id: string)
    requires codec.parse(codec.stringify(v)) == Some(v)
    ensures ToGeminiFunctionResponse(ToolResult(id, [TextPart(codec.stringify(v))], false), codec) == v
  {
    var tr := ToolResult(id, [TextPart(codec.stringify(v))], false);
    SinglePart(TextPart(codec.stringify(v)));
    assert TextsOf(tr.content) == [codec.stringify(v)];
    assert Join([codec.stringify(v)], "\n") == codec.stringify(v);
  }

  // ---- parts ----

  /** Whether `toGeminiPart` accepts a part: an image needs data or a url. */
  predicate Convertible(part: ContentPart) {
    part.ImagePart? ==> Truthy(part.data) || Truthy(part.url)
  }

  /** `toGeminiPart` */
  function ToGeminiPart(part: ContentPart, codec: Codec): (r: Result<Part, string>)
    ensures r.Success? <==> Convertible(part)
    ensures r.Failure? ==> r.error == ImagePartError
    ensures part.ImagePart? && Truthy(part.data) ==>
              r == Success(NoPart.(inlineData := Some(Blob(Some(part.mimeType), part.data))))
    ensures part.ImagePart? && !Truthy(part.data) && Truthy(part.url) ==>
              r == Success(NoPart.(fileData := Some(FileData(Some(part.mimeType), part.url))))
  {
    match part
    case TextPart(text) => Success(NoPart.(text := Some(text)))
    case ImagePart(mimeType, data, url) =>
      if Truthy(data) then Success(NoPart.(inlineData := Some(Blob(Some(mimeType), data))))
      else if Truthy(url) then Success(NoPart.(fileData := Some(FileData(Some(mimeType), url))))
      else Failure(ImagePartError)
    case AudioPart(mimeType, data) => Success(NoPart.(inlineData := Some(Blob(Some(mimeType), Some(data)))))
    case FilePart(mimeType, data, _) => Success(NoPart.(inlineData := Some(Blob(Some(mimeType), Some(data)))))
    case ToolCallPart(tc) =>
      Success(NoPart.(functionCall := Some(FunctionCall(None, Some(tc.name), Some(tc.arguments)))))
    case ToolResultPart(tr) =>
      Success(NoPart.(functionResponse := Some(FunctionResponse(Some(tr.toolCallId), ToGeminiFunctionResponse(tr, codec)))))
  }

  /** The text of a possibly absent string as a template literal shows it. */
  function Shown(s: Option<string>): string {
    match s
    case Some(v) => v
    case None => "undefined"
  }

  /** The id generated for a call without one: `${name}-${Date.now()}-${random}`, the time and random
      suffix being the opaque `stamp`. */
  function GeneratedId(name: Option<string>, stamp: string): string {
    Shown(name) + "-" + stamp
  }

  /** The unified tool call read from a Gemini function call (shared by `fromGeminiPart` and
      `extractToolCallsFromGeminiParts`): a missing id is generated, a missing name is `'unknown'`,
      missing arguments are `{}`. */
  function CallFromGemini(fc: FunctionCall, stamp: string): (tc: ToolCall)
    ensures Truthy(fc.id) ==> tc.id == fc.id.value
    ensures !Truthy(fc.id) ==> tc.id == GeneratedId(fc.name, stamp)
    ensures tc.name == (if Truthy(fc.name) then fc.name.value else "unknown")
    ensures tc.name != ""
    ensures tc.arguments == fc.args.GetOr(EmptyObject)
  {
    ToolCall(if Truthy(fc.id) then fc.id.value else GeneratedId(fc.name, stamp),
             if Truthy(fc.name) then fc.name.value else "unknown",
             fc.args.GetOr(EmptyObject))
  }

  /** `mimeType || 'application/octet-stream'` */
  function MimeOr(mimeType: Option<string>): (m: string)
    ensures m != ""
  {
    if Truthy(mimeType) then mimeType.value else DefaultMimeType
  }

  /** `fromGeminiPart`: the fields are tested in the order text, inline data, file data, function call,
      function response; a thought text and a part with none of them give `None` (null). */
  function FromGeminiPart(p: Part, codec: Codec, stamp: string): (r: Option<ContentPart>)
    ensures p.text.Some? ==> (r.Some? <==> !p.thought)
    ensures p.text.Some? && !p.thought ==> r == Some(TextPart(p.text.value))
    ensures r.Some? && r.value.TextPart? ==> p.text.Some?
    ensures p.text.None? && p.inlineData.Some? ==>
              var mime := MimeOr(p.inlineData.value.mimeType);
              r.Some? && (r.value.ImagePart? || r.value.AudioPart? || r.value.FilePart?) &&
              r.value.mimeType == mime &&
              (StartsWith(mime, "image/") <==> r.value.ImagePart?) &&
              (!StartsWith(mime, "image/") && StartsWith(mime, "audio/") <==> r.value.AudioPart?) &&
              (!StartsWith(mime, "image/") && !StartsWith(mime, "audio/") <==> r.value.FilePart?)
    ensures r.None? <==>
              ((p.text.Some? && p.thought) ||
               (p.text.None? && p.inlineData.None? && p.fileData.None? && p.functionCall.None? && p.functionResponse.None?))
  {
    if p.text.Some? then
      if p.thought then None else Some(TextPart(p.text.value))
    else if p.inlineData.Some? then
      var blob := p.inlineData.value;
      var mimeType := MimeOr(blob.mimeType);
      if StartsWith(mimeType, "image/") then Some(ImagePart(mimeType, blob.data, None))
      else if StartsWith(mimeType, "audio/") then Some(AudioPart(mimeType, blob.data.GetOr("")))
      else Some(FilePart(mimeType, blob.data.GetOr(""), None))
    else if p.fileData.Some? then
      Some(ImagePart(MimeOr(p.fileData.value.mimeType), None, p.fileData.value.fileUri))
    else if p.functionCall.Some? then
      Some(ToolCallPart(CallFromGemini(p.functionCall.value, stamp)))
    else if p.functionResponse.Some? then
      var fr := p.functionResponse.value;
      Some(ToolResultPart(ToolResult(if Truthy(fr.name) then fr.name.value else "unknown",
                                     [TextPart(codec.stringify(fr.response))], false)))
    else None
  }

  /** Round trips of single parts through Gemini and back: text and typed audio are restored exactly;
      an image keeps its data or its url, whichever was sent; a file loses its name; a tool call keeps
      name and arguments but gets a generated id, since the outgoing function call carries none. */
  lemma PartRoundTrip(part: ContentPart, codec: Codec, stamp: string)
    requires Convertible(part)
    ensures part.TextPart? ==> FromGeminiPart(ToGeminiPart(part, codec).value, codec, stamp) == Some(part)
    ensures part.AudioPart? && StartsWith(part.mimeType, "audio/") && !StartsWith(part.mimeType, "image/") ==>
              FromGeminiPart(ToGeminiPart(part, codec).value, codec, stamp) == Some(part)
    ensures part.ImagePart? && Truthy(part.data) && StartsWith(part.mimeType, "image/") ==>
              FromGeminiPart(ToGeminiPart(part, codec).value, codec, stamp) == Some(ImagePart(part.mimeType, part.data, None))
    ensures part.ImagePart? && !Truthy(part.data) && part.mimeType != "" ==>
              FromGeminiPart(ToGeminiPart(part, codec).value, codec, stamp) == Some(ImagePart(part.mimeType, None, part.url))
    ensures part.FilePart? && part.mimeType != "" && !StartsWith(part.mimeType, "image/") && !StartsWith(part.mimeType, "audio/") ==>
              FromGeminiPart(ToGeminiPart(part, codec).value, codec, stamp) == Some(FilePart(part.mimeType, part.fileData, None))
    ensures part.ToolCallPart? ==>
              FromGeminiPart(ToGeminiPart(part, codec).value, codec, stamp) ==
              Some(ToolCallPart(ToolCall(GeneratedId(Some(part.toolCall.name), stamp),
                                         if part.toolCall.name != "" then part.toolCall.name else "unknown",
                                         part.toolCall.arguments)))
    ensures part.ToolResultPart? ==>
              FromGeminiPart(ToGeminiPart(part, codec).value, codec, stamp) ==
              Some(ToolResultPart(ToolResult(if part.toolResult.toolCallId != "" then part.toolResult.toolCallId else "unknown",
                                             [TextPart(codec.stringify(ToGeminiFunctionResponse(part.toolResult, codec)))],
                                             false)))
  {
  }

  // ---- messages ----

  /** `message.content.map(toGeminiPart)`: the first part that throws decides the error. */
  function ToGeminiParts(content: seq<ContentPart>, codec: Codec): (r: Result<seq<Part>, string>)
    ensures r.Success? <==> forall i :: 0 <= i < |content| ==> Convertible(content[i])
    ensures r.Failure? ==> r.error == ImagePartError
    ensures r.Success? ==>
              |r.value| == |content| &&
              forall i :: 0 <= i < |content| ==> r.value[i] == ToGeminiPart(content[i], codec).value
    decreases |content|
  {
    if content == [] then Success([])
    else
      match ToGeminiPart(content[0], codec)
      case Failure(e) => Failure(e)
      case Success(p) =>
        match ToGeminiParts(content[1..], codec)
        case Failure(e) => Failure(e)
        case Success(ps) =>
          assert forall i :: 1 <= i < |content| ==> content[i] == content[1..][i - 1];
          Success([p] + ps)
  }

  /** `toGeminiContent`: the parts are converted before the role, so a bad image part is reported
      even on a system message. */
  function ToGeminiContent(m: Message, codec: Codec): Result<Content, string> {
    match ToGeminiParts(m.content, codec)
    case Failure(e) => Failure(e)
    case Success(parts) =>
      match ToGeminiRole(m.role)
      case Failure(e) => Failure(e)
      case Success(role) => Success(Content(Some(role), Some(parts)))
  }

  /** The non-system messages of `ms`, in order. */
  function NonSystem(ms: seq<Message>): (r: seq<Message>)
    ensures |r| <= |ms|
    ensures forall m :: m in r <==> m in ms && !m.role.SystemRole?
    decreases |ms|
  {
    if ms == [] then []
    else (if ms[0].role.SystemRole? then [] else [ms[0]]) + NonSystem(ms[1..])
  }

  /** Whether every part of every message in `ms` converts. */
  predicate AllConvertible(ms: seq<Message>) {
    forall i, j :: 0 <= i < |ms| && 0 <= j < |ms[i].content| ==> Convertible(ms[i].content[j])
  }

  function ToGeminiContentsOf(ms: seq<Message>, codec: Codec): Result<seq<Content>, string>
    decreases |ms|
  {
    if ms == [] then Success([])
    else
      match ToGeminiContent(ms[0], codec)
      case Failure(e) => Failure(e)
      case Success(c) =>
        match ToGeminiContentsOf(ms[1..], codec)
        case Failure(e) => Failure(e)
        case Success(cs) => Success([c] + cs)
  }

  /** `toGeminiContents`: the system messages are dropped, then the rest converted in order. */
  function ToGeminiContents(ms: seq<Message>, codec: Codec): Result<seq<Content>, string> {
    ToGeminiContentsOf(NonSystem(ms), codec)
  }

  /** Converting a list without system messages never meets the system-role throw: it fails exactly
      when some image part has neither data nor url, and otherwise gives one content per message, in
      order, each with role `'user'` or `'model'`. */
  lemma {:induction false} ContentsOfNonSystem(ms: seq<Message>, codec: Codec)
    requires forall i :: 0 <= i < |ms| ==> !ms[i].role.SystemRole?
    ensures ToGeminiContentsOf(ms, codec).Success? <==> AllConvertible(ms)
    ensures ToGeminiContentsOf(ms, codec).Failure? ==> ToGeminiContentsOf(ms, codec).error == ImagePartError
    ensures ToGeminiContentsOf(ms, codec).Success? ==>
              var cs := ToGeminiContentsOf(ms, codec).value;
              |cs| == |ms| &&
              forall i :: 0 <= i < |ms| ==>
                cs[i] == ToGeminiContent(ms[i], codec).value &&
                cs[i].role in {Some("user"), Some("model")}
    decreases |ms|
  {
    if ms != [] {
      ContentsOfNonSystem(ms[1..], codec);
      ContentOfNonSystem(ms[0], codec);
      AllConvertibleSplit(ms);
      assert forall i :: 1 <= i < |ms| ==> ms[i] == ms[1..][i - 1];
    }
  }

  /** One non-system message converts exactly when its parts do, to a `'user'` or `'model'` content. */
  lemma ContentOfNonSystem(m: Message, codec: Codec)
    requires !m.role.SystemRole?
    ensures ToGeminiContent(m, codec).Success? <==> forall j :: 0 <= j < |m.content| ==> Convertible(m.content[j])
    ensures ToGeminiContent(m, codec).Failure? ==> ToGeminiContent(m, codec).error == ImagePartError
    ensures ToGeminiContent(m, codec).Success? ==> ToGeminiContent(m, codec).value.role in {Some("user"), Some("model")}
  {
  }

  /** `AllConvertible` of a non-empty list, split at its head. */
  lemma AllConvertibleSplit(ms: seq<Message>)
    requires ms != []
    ensures AllConvertible(ms) <==>
              (forall j :: 0 <= j < |ms[0].content| ==> Convertible(ms[0].content[j])) && AllConvertible(ms[1..])
  {
    if !AllConvertible(ms) {
      var i, j :| 0 <= i < |ms| && 0 <= j < |ms[i].content| && !Convertible(ms[i].content[j]);
      if i > 0 {
        assert ms[1..][i - 1] == ms[i];
      }
    }
    if AllConvertible(ms) {
      forall i, j | 0 <= i < |ms[1..]| && 0 <= j < |ms[1..][i].content|
        ensures Convertible(ms[1..][i].content[j])
      {
        assert ms[1..][i] == ms[i + 1];
      }
    }
  }

  /** `toGeminiContents` never throws the system-role error; it drops exactly the system messages and
      keeps the order of the rest. */
  lemma ToGeminiContentsRule(ms: seq<Message>, codec: Codec)
    ensures ToGeminiContents(ms, codec).Success? <==> AllConvertible(NonSystem(ms))
    ensures ToGeminiContents(ms, codec).Failure? ==> ToGeminiContents(ms, codec).error == ImagePartError
    ensures ToGeminiContents(ms, codec).Success? ==>
              var cs := ToGeminiContents(ms, codec).value;
              |cs| == |NonSystem(ms)| &&
              forall i :: 0 <= i < |cs| ==> cs[i] == ToGeminiContent(NonSystem(ms)[i], codec).value
  {
    var kept := NonSystem(ms);
    forall i | 0 <= i < |kept|
      ensures !kept[i].role.SystemRole?
    {
      assert kept[i] in kept;
    }
    ContentsOfNonSystem(kept, codec);
  }

  /** The converted parts of a Gemini part list, `stamp(i)` suffixing the id generated for part `i`;
      parts that convert to null are dropped. */
  function FromGeminiParts(parts: seq<Part>, codec: Codec, stamp: nat -> string): seq<ContentPart>
    decreases |parts|
  {
    if parts == [] then []
    else
      var n := |parts| - 1;
      FromGeminiParts(parts[..n], codec, stamp) +
      (match FromGeminiPart(parts[n], codec, stamp(n)) case Some(c) => [c] case None => [])
  }

  /** The first part whose `thought` flag is set. */
  function FirstThought(parts: seq<Part>): (r: Option<Part>)
    ensures r.Some? ==> r.value in parts && r.value.thought
    ensures r.None? ==> forall i :: 0 <= i < |parts| ==> !parts[i].thought
    decreases |parts|
  {
    if parts == [] then None
    else if parts[0].thought then Some(parts[0])
    else FirstThought(parts[1..])
  }

  /** The first part with a non-empty thought signature. */
  function FirstSignature(parts: seq<Part>): (r: Option<string>)
    ensures r.Some? ==> r.value != "" && exists i :: 0 <= i < |parts| && parts[i].thoughtSignature == Some(r.value)
    ensures r.None? ==> forall i :: 0 <= i < |parts| ==> !Truthy(parts[i].thoughtSignature)
    decreases |parts|
  {
    if parts == [] then None
    else if Truthy(parts[0].thoughtSignature) then parts[0].thoughtSignature
    else
      var r := FirstSignature(parts[1..]);
      assert forall i :: 1 <= i < |parts| ==> parts[i] == parts[1..][i - 1];
      r
  }

  /** The metadata record of `fromGeminiContent`. */
  function ContentMetadata(parts: seq<Part>): (md: map<string, Json>)
    ensures md.Keys <= {"thought", "thoughtSignature"}
    ensures var th := FirstThought(parts);
              ("thought" in md <==> th.Some? && Truthy(th.value.text))
              && ("thought" in md ==> md["thought"] == JStr(th.value.text.value))
    ensures var sig := FirstSignature(parts);
              ("thoughtSignature" in md <==> sig.Some?)
              && ("thoughtSignature" in md ==> md["thoughtSignature"] == JStr(sig.value))
  {
    var thought := FirstThought(parts);
    var withThought := if thought.Some? && Truthy(thought.value.text)
                       then map["thought" := JStr(thought.value.text.value)] else map[];
    match FirstSignature(parts)
    case Some(sig) => withThought["thoughtSignature" := JStr(sig)]
    case None => withThought
  }

  /** `fromGeminiContent`. */
  function FromGeminiContent(content: Content, codec: Codec, stamp: nat -> string): (m: Message)
    ensures m.role == (if Truthy(content.role) && content.role.value == "model" then AssistantRole else UserRole)
    ensures m.content == FromGeminiParts(content.parts.GetOr([]), codec, stamp)
    ensures m.metadata.Some? <==> ContentMetadata(content.parts.GetOr([])) != map[]
    ensures m.metadata.Some? ==> m.metadata.value.Keys <= {"thought", "thoughtSignature"}
    ensures var th := FirstThought(content.parts.GetOr([]));
              (m.metadata.Some? && "thought" in m.metadata.value) <==> th.Some? && Truthy(th.value.text)
    ensures var th := FirstThought(content.parts.GetOr([]));
              th.Some? && Truthy(th.value.text) ==>
                m.metadata.Some? && "thought" in m.metadata.value && m.metadata.value["thought"] == JStr(th.value.text.value)
    ensures var sig := FirstSignature(content.parts.GetOr([]));
              (m.metadata.Some? && "thoughtSignature" in m.metadata.value) <==> sig.Some?
    ensures var sig := FirstSignature(content.parts.GetOr([]));
              sig.Some? ==>
                m.metadata.Some? && "thoughtSignature" in m.metadata.value && m.metadata.value["thoughtSignature"] == JStr(sig.value)
  {
    var parts := content.parts.GetOr([]);
    var metadata := ContentMetadata(parts);
    Message(FromGeminiRole(if Truthy(content.role) then content.role.value else "user"),
            FromGeminiParts(parts, codec, stamp),
            if metadata != map[] then Some(metadata) else None)
  }

  /** `fromGeminiContents`: content `k` uses the stamps `stamps(k)`. */
  function FromGeminiContents(contents: seq<Content>, codec: Codec, stamps: nat -> nat -> string): (ms: seq<Message>)
    ensures |ms| == |contents|
    ensures forall k :: 0 <= k < |contents| ==> ms[k] == FromGeminiContent(contents[k], codec, stamps(k))
  {
    seq(|contents|, k requires 0 <= k < |contents| => FromGeminiContent(contents[k], codec, stamps(k)))
  }

  // ---- tools and helpers ----

  /** `toGeminiFunctionDeclaration` */
  function ToGeminiFunctionDeclaration(schema: ToolSchema): (d: FunctionDeclaration)
    ensures d.name == schema.name && d.description == schema.description && d.parameters == schema.parameters
  {
    FunctionDeclaration(schema.name, schema.description, schema.parameters)
  }

  /** The texts of the parts that have a text and are not thoughts, in order. */
  function VisibleTexts(parts: seq<Part>): seq<string>
    decreases |parts|
  {
    if parts == [] then []
    else
      var n := |parts| - 1;
      VisibleTexts(parts[..n]) + (if parts[n].text.Some? && !parts[n].thought then [parts[n].text.value] else [])
  }

  /** `extractTextFromGeminiParts` */
  function ExtractTextFromGeminiParts(parts: seq<Part>): string {
    Join(VisibleTexts(parts), "")
  }

  /** `extractToolCallsFromGeminiParts`: one call per part with a function call, in order; the `k`-th
      call's generated id (if any) uses `stamp(k)`. */
  function ExtractToolCallsFromGeminiParts(parts: seq<Part>, stamp: nat -> string): (calls: seq<ToolCall>)
    decreases |parts|
  {
    if parts == [] then []
    else
      var n := |parts| - 1;
      var init := ExtractToolCallsFromGeminiParts(parts[..n], stamp);
      init + (if parts[n].functionCall.Some? then [CallFromGemini(parts[n].functionCall.value, stamp(|init|))] else [])
  }

  /** The function calls of `parts`, in order. */
  function FunctionCallsOf(parts: seq<Part>): seq<FunctionCall>
    decreases |parts|
  {
    if parts == [] then []
    else
      var n := |parts| - 1;
      FunctionCallsOf(parts[..n]) + (if parts[n].functionCall.Some? then [parts[n].functionCall.value] else [])
  }

  /** `extractToolCallsFromGeminiParts` reads exactly the function-call parts, in order, each through
      the default rules. */
  lemma {:induction false} ExtractedToolCalls(parts: seq<Part>, stamp: nat -> string)
    ensures |ExtractToolCallsFromGeminiParts(parts, stamp)| == |FunctionCallsOf(parts)|
    ensures forall k :: 0 <= k < |FunctionCallsOf(parts)| ==>
              ExtractToolCallsFromGeminiParts(parts, stamp)[k] == CallFromGemini(FunctionCallsOf(parts)[k], stamp(k))
    decreases |parts|
  {
    if parts != [] {
      var n := |parts| - 1;
      var init := parts[..n];
      ExtractedToolCalls(init, stamp);
      var ci := ExtractToolCallsFromGeminiParts(init, stamp);
      var fi := FunctionCallsOf(init);
      if parts[n].functionCall.Some? {
        var fc := parts[n].functionCall.value;
        assert ExtractToolCallsFromGeminiParts(parts, stamp) == ci + [CallFromGemini(fc, stamp(|ci|))];
        assert FunctionCallsOf(parts) == fi + [fc];
      } else {
        assert ExtractToolCallsFromGeminiParts(parts, stamp) == ci;
        assert FunctionCallsOf(parts) == fi;
      }
    }
  }

  /** The text a converted Gemini content shows is the text the helper extracts from its parts: text
      parts become text parts unless they are thoughts, and no other part becomes a text part. */
  lemma {:induction false} ConvertedTextAgrees(parts: seq<Part>, codec: Codec, stamp: nat -> string)
    ensures TextsOf(FromGeminiParts(parts, codec, stamp)) == VisibleTexts(parts)
    decreases |parts|
  {
    if parts != [] {
      var n := |parts| - 1;
      ConvertedTextAgrees(parts[..n], codec, stamp);
      var last := match FromGeminiPart(parts[n], codec, stamp(n)) case Some(c) => [c] case None => [];
      TextsOfAppend(FromGeminiParts(parts[..n], codec, stamp), last);
      if last != [] {
        SinglePart(last[0]);
      }
    }
  }

  /** `extractText(fromGeminiContent(c))` is `extractTextFromGeminiParts(c.parts)`. */
  lemma ExtractTextOfConverted(content: Content, codec: Codec, stamp: nat -> string)
    ensures ExtractText(FromGeminiContent(content, codec, stamp)) == ExtractTextFromGeminiParts(content.parts.GetOr([]))
  {
    ConvertedTextAgrees(content.parts.GetOr([]), codec, stamp);
  }
}

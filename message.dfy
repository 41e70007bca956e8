/** The unified message model: roles, content parts, messages and their projections
    (packages/core/src/llm/types/message.ts). */
module MessageTypes {
  import opened Wrappers
  import opened Strings
  import opened Json

  /** A message role. The four roles of the type; `OtherRole` is a role string outside them, which
      untyped callers can still supply and which history validation rejects. Its `name` is taken to be
      none of "user", "assistant", "system" and "tool": those strings are the four named roles. */
  datatype Role = UserRole | AssistantRole | SystemRole | ToolRole | OtherRole(name: string)

  datatype ToolCall = ToolCall(id: string, name: string, arguments: Json)

  datatype ContentPart =
    | TextPart(text: string)
    | ImagePart(mimeType: string, data: Option<string>, url: Option<string>)
    | AudioPart(mimeType: string, audioData: string)
    | FilePart(mimeType: string, fileData: string, filename: Option<string>)
    | ToolCallPart(toolCall: ToolCall)
    | ToolResultPart(toolResult: ToolResult)

  datatype ToolResult = ToolResult(toolCallId: string, content: seq<ContentPart>, isError: bool)

  datatype Message = Message(role: Role, content: seq<ContentPart>, metadata: Option<map<string, Json>>)


  // ---- constructors ----

  /** A message of role `role` holding the single text part `text`. */
  function CreateTextMessage(role: Role, text: string): (m: Message)
    ensures m.role == role && m.metadata.None? && m.content == [TextPart(text)]
    ensures ExtractText(m) == text && ExtractToolCalls(m) == []
    ensures IsValidMessage(m) <==> text != ""
  {
    var m := Message(role, [TextPart(text)], None);
    SinglePart(TextPart(text));
    assert m.content[0] == TextPart(text);
    assert m.content[1..] == [];
    assert !SomePartValid(m.content[1..]);
    assert IsValidMessage(m) <==> PartIsValid(TextPart(text));
    m
  }

  function CreateUserMessage(text: string): (m: Message)
    ensures m == CreateTextMessage(UserRole, text)
    ensures m.role == UserRole && ExtractText(m) == text
  {
    CreateTextMessage(UserRole, text)
  }

  function CreateAssistantMessage(text: string): (m: Message)
    ensures m == CreateTextMessage(AssistantRole, text)
    ensures m.role == AssistantRole && ExtractText(m) == text
  {
    CreateTextMessage(AssistantRole, text)
  }

  // ---- projections ----

  /** The texts of the text parts of `content`, in order. */
  function TextsOf(content: seq<ContentPart>): seq<string>
    decreases |content|
  {
    if content == [] then []
    else
      var last := content[|content| - 1];
      TextsOf(content[..|content| - 1]) + (if last.TextPart? then [last.text] else [])
  }

  /** The payloads of the tool-call parts of `content`, in order. */
  function ToolCallsOf(content: seq<ContentPart>): seq<ToolCall>
    decreases |content|
  {
    if content == [] then []
    else
      var last := content[|content| - 1];
      ToolCallsOf(content[..|content| - 1]) + (if last.ToolCallPart? then [last.toolCall] else [])
  }

  /** `extractText`: the text parts joined with the empty string. */
  function ExtractText(m: Message): string {
    Join(TextsOf(m.content), "")
  }

  /** `extractToolCalls` */
  function ExtractToolCalls(m: Message): seq<ToolCall> {
    ToolCallsOf(m.content)
  }

  /** `hasToolCalls`: some part is a tool call. */
  predicate HasToolCalls(m: Message) {
    exists p | p in m.content :: p.ToolCallPart?
  }

  /** The per-part non-emptiness rule of `isValidMessage`. */
  predicate PartIsValid(p: ContentPart) {
    match p
    case TextPart(text) => |text| > 0
    case ImagePart(_, data, url) => Truthy(data) || Truthy(url)
    case AudioPart(_, data) => data != ""
    case FilePart(_, data, _) => data != ""
    case ToolCallPart(tc) => tc.id != "" && tc.name != ""
    case ToolResultPart(tr) => tr.toolCallId != ""
  }

  /** `content.some(...)` with the per-part rule. */
  predicate SomePartValid(content: seq<ContentPart>)
    decreases |content|
  {
    content != [] && (PartIsValid(content[0]) || SomePartValid(content[1..]))
  }

  /** `isValidMessage`: non-empty content with at least one valid part. */
  predicate IsValidMessage(m: Message) {
    |m.content| > 0 && SomePartValid(m.content)
  }

  // ---- properties ----

  /** The projections of a one-part content. */
  lemma SinglePart(p: ContentPart)
    ensures TextsOf([p]) == (if p.TextPart? then [p.text] else [])
    ensures ToolCallsOf([p]) == (if p.ToolCallPart? then [p.toolCall] else [])
    ensures Join(TextsOf([p]), "") == (if p.TextPart? then p.text else "")
  {
    assert [p][..0] == [];
  }

  lemma {:induction false} TextsOfAppend(a: seq<ContentPart>, b: seq<ContentPart>)
    ensures TextsOf(a + b) == TextsOf(a) + TextsOf(b)
    decreases |b|
  {
    if b == [] {
      assert a + b == a;
    } else {
      assert (a + b)[..|a + b| - 1] == a + b[..|b| - 1];
      TextsOfAppend(a, b[..|b| - 1]);
    }
  }

  lemma {:induction false} ToolCallsOfAppend(a: seq<ContentPart>, b: seq<ContentPart>)
    ensures ToolCallsOf(a + b) == ToolCallsOf(a) + ToolCallsOf(b)
    decreases |b|
  {
    if b == [] {
      assert a + b == a;
    } else {
      assert (a + b)[..|a + b| - 1] == a + b[..|b| - 1];
      ToolCallsOfAppend(a, b[..|b| - 1]);
    }
  }

  /** `extractText` is the in-order concatenation of the text parts: a text part contributes its text,
      every other part nothing, and content splits over concatenation. */
  lemma ExtractTextConcatenates(role: Role, a: seq<ContentPart>, b: seq<ContentPart>, p: ContentPart)
    ensures ExtractText(Message(role, a + b, None)) == ExtractText(Message(role, a, None)) + ExtractText(Message(role, b, None))
    ensures ExtractText(Message(role, [p], None)) == (if p.TextPart? then p.text else "")
  {
    TextsOfAppend(a, b);
    JoinEmptyIsConcat(TextsOf(a + b));
    JoinEmptyIsConcat(TextsOf(a));
    JoinEmptyIsConcat(TextsOf(b));
    ConcatAppend(TextsOf(a), TextsOf(b));
    SinglePart(p);
  }

  /** `extractToolCalls` lists exactly the tool-call payloads, in content order: the calls of any
      prefix of the content come before those of the rest. */
  lemma {:induction false} ExtractToolCallsInOrder(content: seq<ContentPart>)
    ensures |ToolCallsOf(content)| <= |content|
    ensures forall tc :: tc in ToolCallsOf(content) <==> ToolCallPart(tc) in content
    ensures forall i :: 0 <= i <= |content| ==>
              ToolCallsOf(content) == ToolCallsOf(content[..i]) + ToolCallsOf(content[i..])
    decreases |content|
  {
    forall i | 0 <= i <= |content|
      ensures ToolCallsOf(content) == ToolCallsOf(content[..i]) + ToolCallsOf(content[i..])
    {
      ToolCallsOfAppend(content[..i], content[i..]);
      assert content[..i] + content[i..] == content;
    }
    if content != [] {
      var init := content[..|content| - 1];
      ExtractToolCallsInOrder(init);
      assert content == init + [content[|content| - 1]];
    }
  }

  /** `hasToolCalls(m)` holds iff `extractToolCalls(m)` is non-empty. */
  lemma HasToolCallsIffExtracted(m: Message)
    ensures HasToolCalls(m) <==> ExtractToolCalls(m) != []
  {
    ExtractToolCallsInOrder(m.content);
    if HasToolCalls(m) {
      var p :| p in m.content && p.ToolCallPart?;
      assert p.toolCall in ToolCallsOf(m.content);
    }
    if ExtractToolCalls(m) != [] {
      var tc := ExtractToolCalls(m)[0];
      assert ToolCallPart(tc) in m.content;
    }
  }

  /** `content.some(...)` holds iff some part of the content satisfies the rule of its type. */
  lemma {:induction false} SomePartValidIff(content: seq<ContentPart>)
    ensures SomePartValid(content) <==> exists p | p in content :: PartIsValid(p)
    decreases |content|
  {
    if content != [] {
      SomePartValidIff(content[1..]);
      assert content == [content[0]] + content[1..];
      if !PartIsValid(content[0]) && exists p | p in content :: PartIsValid(p) {
        var p :| p in content && PartIsValid(p);
        assert p in content[1..];
      }
    }
  }

  /** A message is valid iff some part of it is valid by the rule of its type; in particular empty
      content is never valid, and validity of joined content is the disjunction of the halves'. */
  lemma ValidityOfJoinedContent(role: Role, a: seq<ContentPart>, b: seq<ContentPart>)
    ensures !IsValidMessage(Message(role, [], None))
    ensures IsValidMessage(Message(role, a + b, None)) <==> (exists p | p in a + b :: PartIsValid(p))
    ensures IsValidMessage(Message(role, a + b, None)) <==>
              IsValidMessage(Message(role, a, None)) || IsValidMessage(Message(role, b, None))
  {
    SomePartValidIff(a + b);
    SomePartValidIff(a);
    SomePartValidIff(b);
    if exists p | p in a + b :: PartIsValid(p) {
      var p :| p in a + b && PartIsValid(p);
      assert p in a || p in b;
    }
    if exists p | p in a :: PartIsValid(p) {
      var p :| p in a && PartIsValid(p);
      assert p in a + b;
    }
    if exists p | p in b :: PartIsValid(p) {
      var p :| p in b && PartIsValid(p);
      assert p in a + b;
    }
  }
}

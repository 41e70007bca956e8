/** The per-id accumulation of streamed tool-call fragments, written out identically in
    `collectStreamResponse` (packages/core/src/llm/adapters/gemini/stream-processor.ts) and in
    `UnifiedChat.sendMessageStream` (packages/core/src/llm/chat/chat.ts): a `Map` from call id to
    `{ name?, args }` in insertion order, then one tool call per entry. */
module ToolCallTable {
  import opened Wrappers
  import opened Strings
  import opened Json
  import opened MessageTypes
  import opened StreamTypes

  datatype Entry = Entry(name: Option<string>, args: string)

  /** An insertion-ordered map: `order` lists the keys of `entries` in the order they were set. */
  datatype Table = Table(order: seq<string>, entries: map<string, Entry>)

  const EmptyTable: Table := Table([], map[])

  predicate NoDuplicates(s: seq<string>) {
    forall i, j :: 0 <= i < j < |s| ==> s[i] != s[j]
  }

  ghost predicate Valid(t: Table) {
    NoDuplicates(t.order) && forall id :: id in t.entries <==> id in t.order
  }

  /** One `toolCallDelta`: an existing entry takes a non-empty name and appends a non-empty fragment;
      a new entry holds the event's name as given and its fragment or `''`. */
  function Record(t: Table, id: string, name: Option<string>, argumentsDelta: Option<string>): (u: Table)
    requires Valid(t)
    ensures Valid(u)
  {
    if id in t.entries then
      var existing := t.entries[id];
      var newName := if Truthy(name) then name else existing.name;
      var newArgs := if Truthy(argumentsDelta) then existing.args + argumentsDelta.value else existing.args;
      Table(t.order, t.entries[id := Entry(newName, newArgs)])
    else
      Table(t.order + [id], t.entries[id := Entry(name, argumentsDelta.GetOr(""))])
  }

  /** The table after the events of `events`; events other than `toolCallDelta` leave it alone. */
  function TableOf(events: seq<StreamEvent>): (t: Table)
    ensures Valid(t)
    decreases |events|
  {
    if events == [] then EmptyTable
    else
      var t := TableOf(events[..|events| - 1]);
      match events[|events| - 1]
      case ToolCallDelta(id, name, argumentsDelta) => Record(t, id, name, argumentsDelta)
      case _ => t
  }

  // ---- an independent description of the table ----

  /** The call ids of the `toolCallDelta` events, in arrival order, repeats included. */
  function IdsOf(events: seq<StreamEvent>): seq<string>
    decreases |events|
  {
    if events == [] then []
    else
      var last := events[|events| - 1];
      IdsOf(events[..|events| - 1]) + (if last.ToolCallDelta? then [last.toolCallId] else [])
  }

  /** The argument fragments of call `id`, concatenated in arrival order (an absent fragment adds
      nothing). */
  function ArgsOf(events: seq<StreamEvent>, id: string): string
    decreases |events|
  {
    if events == [] then ""
    else
      var last := events[|events| - 1];
      ArgsOf(events[..|events| - 1], id) +
      (if last.ToolCallDelta? && last.toolCallId == id then last.argumentsDelta.GetOr("") else "")
  }

  /** The last non-empty name announced for call `id`. */
  function LastName(events: seq<StreamEvent>, id: string): (r: Option<string>)
    ensures r.Some? ==> r.value != ""
    decreases |events|
  {
    if events == [] then None
    else
      var last := events[|events| - 1];
      if last.ToolCallDelta? && last.toolCallId == id && Truthy(last.name) then last.name
      else LastName(events[..|events| - 1], id)
  }

  /** The position of the first occurrence of `x` in `s`. */
  function FirstIndex(s: seq<string>, x: string): (i: nat)
    requires x in s
    ensures i < |s| && s[i] == x && x !in s[..i]
    decreases |s|
  {
    if s[0] == x then 0 else 1 + FirstIndex(s[1..], x)
  }

  /** `d` lists the distinct elements of `s` in the order of their first occurrence. */
  ghost predicate FirstSeenOrder(d: seq<string>, s: seq<string>) {
    NoDuplicates(d) &&
    (forall x :: x in d <==> x in s) &&
    (forall i, j :: 0 <= i < j < |d| ==> FirstIndex(s, d[i]) < FirstIndex(s, d[j]))
  }

  lemma {:induction false} FirstIndexAppend(s: seq<string>, x: string, y: string)
    requires y in s + [x]
    ensures y in s ==> FirstIndex(s + [x], y) == FirstIndex(s, y)
    ensures y !in s ==> FirstIndex(s + [x], y) == |s|
    decreases |s|
  {
    if s != [] && s[0] != y {
      assert (s + [x])[1..] == s[1..] + [x];
      FirstIndexAppend(s[1..], x, y);
    }
  }

  /** The table is empty exactly when no `toolCallDelta` arrived. */
  lemma {:induction false} OrderEmptyIff(events: seq<StreamEvent>)
    ensures TableOf(events).order == [] <==> IdsOf(events) == []
    decreases |events|
  {
    if events != [] {
      var init := events[..|events| - 1];
      OrderEmptyIff(init);
      var last := events[|events| - 1];
      if last.ToolCallDelta? && last.toolCallId in TableOf(init).entries {
        assert last.toolCallId in TableOf(init).order;
      }
    }
  }

  /** An id never seen has no fragments. */
  lemma {:induction false} ArgsOfUnseen(events: seq<StreamEvent>, id: string)
    requires id !in IdsOf(events)
    ensures ArgsOf(events, id) == ""
    ensures LastName(events, id).None?
    decreases |events|
  {
    if events != [] {
      ArgsOfUnseen(events[..|events| - 1], id);
    }
  }

  /** The name an entry ends with, when non-empty. */
  function NameOr(name: Option<string>): Option<string> {
    if Truthy(name) then name else None
  }

  /** What the table holds, described without the fold: its ids are the distinct call ids in order of
      first arrival; each entry's arguments are all of that id's fragments concatenated in arrival
      order; its name, when non-empty, is the last non-empty name announced for that id. */
  ghost predicate Describes(t: Table, events: seq<StreamEvent>) {
    FirstSeenOrder(t.order, IdsOf(events)) &&
    forall id :: id in t.entries ==>
      t.entries[id].args == ArgsOf(events, id) && NameOr(t.entries[id].name) == LastName(events, id)
  }

  lemma {:induction false} TableOfDescribes(events: seq<StreamEvent>)
    ensures Describes(TableOf(events), events)
    decreases |events|
  {
    if events != [] {
      var init := events[..|events| - 1];
      var last := events[|events| - 1];
      TableOfDescribes(init);
      if last.ToolCallDelta? {
        RecordDescribes(init, last);
      } else {
        OtherKeepsDescription(init, last);
      }
    }
  }

  /** One more event, as each description function sees it. */
  lemma StepFacts(init: seq<StreamEvent>, last: StreamEvent, x: string)
    ensures var events := init + [last];
            IdsOf(events) == IdsOf(init) + (if last.ToolCallDelta? then [last.toolCallId] else []) &&
            ArgsOf(events, x) == ArgsOf(init, x) +
              (if last.ToolCallDelta? && last.toolCallId == x then last.argumentsDelta.GetOr("") else "") &&
            LastName(events, x) ==
              (if last.ToolCallDelta? && last.toolCallId == x && Truthy(last.name) then last.name else LastName(init, x)) &&
            TableOf(events) ==
              (if last.ToolCallDelta? then Record(TableOf(init), last.toolCallId, last.name, last.argumentsDelta)
               else TableOf(init))
  {
    var events := init + [last];
    assert events[..|events| - 1] == init;
  }

  lemma OtherKeepsDescription(init: seq<StreamEvent>, last: StreamEvent)
    requires !last.ToolCallDelta?
    requires Describes(TableOf(init), init)
    ensures Describes(TableOf(init + [last]), init + [last])
  {
    StepFacts(init, last, "");
    var t := TableOf(init);
    assert TableOf(init + [last]) == t;
    assert IdsOf(init + [last]) == IdsOf(init);
    assert FirstSeenOrder(t.order, IdsOf(init + [last]));
    forall id | id in t.entries
      ensures t.entries[id].args == ArgsOf(init + [last], id) && NameOr(t.entries[id].name) == LastName(init + [last], id)
    {
      StepFacts(init, last, id);
    }
  }

  lemma RecordDescribes(init: seq<StreamEvent>, last: StreamEvent)
    requires last.ToolCallDelta?
    requires Describes(TableOf(init), init)
    ensures Describes(TableOf(init + [last]), init + [last])
  {
    var t := TableOf(init);
    var id := last.toolCallId;
    StepFacts(init, last, id);
    RecordEntries(init, last);
    RecordOrderOnly(t, id, last.name, last.argumentsDelta);
    RecordOrder(t, IdsOf(init), id);
  }

  /** After a `toolCallDelta`, each entry still holds its id's fragments and last name. */
  lemma RecordEntries(init: seq<StreamEvent>, last: StreamEvent)
    requires last.ToolCallDelta?
    requires Describes(TableOf(init), init)
    ensures var u := TableOf(init + [last]);
            forall x :: x in u.entries ==>
              u.entries[x].args == ArgsOf(init + [last], x) && NameOr(u.entries[x].name) == LastName(init + [last], x)
  {
    var t := TableOf(init);
    var u := TableOf(init + [last]);
    var id := last.toolCallId;
    forall x | x in u.entries
      ensures u.entries[x].args == ArgsOf(init + [last], x) && NameOr(u.entries[x].name) == LastName(init + [last], x)
    {
      StepFacts(init, last, x);
      if x == id && id !in t.entries {
        assert id !in IdsOf(init);
        ArgsOfUnseen(init, id);
      }
    }
  }

  /** Recording an id keeps the key order the first-arrival order. */
  lemma RecordOrder(t: Table, ids: seq<string>, id: string)
    requires Valid(t) && FirstSeenOrder(t.order, ids)
    ensures FirstSeenOrder(Record(t, id, None, None).order, ids + [id])
  {
    FirstSeenStep(t.order, ids, id);
  }

  /** The order of first occurrence, extended by one more occurrence of `id`. */
  lemma FirstSeenStep(d: seq<string>, ids: seq<string>, id: string)
    requires FirstSeenOrder(d, ids)
    ensures FirstSeenOrder(if id in d then d else d + [id], ids + [id])
  {
    forall x | x in ids
      ensures FirstIndex(ids + [id], x) == FirstIndex(ids, x)
    {
      FirstIndexAppend(ids, id, x);
    }
    if id !in d {
      FirstSeenNew(d, ids, id);
    } else {
      forall i, j | 0 <= i < j < |d|
        ensures FirstIndex(ids + [id], d[i]) < FirstIndex(ids + [id], d[j])
      {
        assert d[i] in ids && d[j] in ids;
      }
    }
  }

  lemma FirstSeenNew(d: seq<string>, ids: seq<string>, id: string)
    requires FirstSeenOrder(d, ids) && id !in d
    requires forall x :: x in ids ==> FirstIndex(ids + [id], x) == FirstIndex(ids, x)
    ensures FirstSeenOrder(d + [id], ids + [id])
  {
    var e := d + [id];
    FirstIndexAppend(ids, id, id);
    assert NoDuplicates(e);
    forall i, j | 0 <= i < j < |e|
      ensures FirstIndex(ids + [id], e[i]) < FirstIndex(ids + [id], e[j])
    {
      FirstSeenNewPair(d, ids, id, i, j);
    }
  }

  lemma FirstSeenNewPair(d: seq<string>, ids: seq<string>, id: string, i: nat, j: nat)
    requires FirstSeenOrder(d, ids) && id !in d
    requires forall x :: x in ids ==> FirstIndex(ids + [id], x) == FirstIndex(ids, x)
    requires FirstIndex(ids + [id], id) == |ids|
    requires i < j < |d| + 1
    ensures (d + [id])[i] in ids + [id] && (d + [id])[j] in ids + [id]
    ensures FirstIndex(ids + [id], (d + [id])[i]) < FirstIndex(ids + [id], (d + [id])[j])
  {
    var e := d + [id];
    assert e[i] == d[i] && e[i] in ids;
    if j == |e| - 1 {
      assert FirstIndex(ids, e[i]) < |ids|;
    } else {
      assert e[j] == d[j] && e[j] in ids;
    }
  }

  /** The order does not depend on the name or fragment of the recorded event. */
  lemma RecordOrderOnly(t: Table, id: string, name: Option<string>, argumentsDelta: Option<string>)
    requires Valid(t)
    ensures Record(t, id, name, argumentsDelta).order == Record(t, id, None, None).order
  {
  }

  // ---- the tool calls built from the table ----

  /** The tool call built from one entry: a missing or empty name is `'unknown'`, and arguments that do
      not parse are `{}`. */
  function CallOf(id: string, e: Entry, codec: Codec): (tc: ToolCall)
    ensures tc.id == id && tc.name == NameOr(e.name).GetOr("unknown")
    ensures tc.arguments == ParseOr(codec, e.args, EmptyObject)
  {
    ToolCall(id, if Truthy(e.name) then e.name.value else "unknown", ParseOr(codec, e.args, EmptyObject))
  }

  /** The tool calls of `for (const [id, data] of map)`, in key order. */
  function Materialized(t: Table, codec: Codec): (calls: seq<ToolCall>)
    requires Valid(t)
    ensures |calls| == |t.order|
  {
    seq(|t.order|, k requires 0 <= k < |t.order| => CallOf(t.order[k], t.entries[t.order[k]], codec))
  }

  /** The `toolCallDelta` branch of the event loop: update the existing entry in place, or set a new
      one. */
  method RecordDelta(t: Table, id: string, name: Option<string>, argumentsDelta: Option<string>) returns (u: Table)
    requires Valid(t)
    ensures u == Record(t, id, name, argumentsDelta)
  {
    if id in t.entries {
      var existing := t.entries[id];
      if Truthy(name) {
        existing := existing.(name := name);
      }
      if Truthy(argumentsDelta) {
        existing := existing.(args := existing.args + argumentsDelta.value);
      }
      u := Table(t.order, t.entries[id := existing]);
    } else {
      u := Table(t.order + [id], t.entries[id := Entry(name, argumentsDelta.GetOr(""))]);
    }
  }

  /** The loop over the map's entries that builds one tool call per entry. */
  method BuildToolCalls(t: Table, codec: Codec) returns (toolCalls: seq<ToolCall>)
    requires Valid(t)
    ensures toolCalls == Materialized(t, codec)
  {
    toolCalls := [];
    for k := 0 to |t.order|
      invariant toolCalls == Materialized(t, codec)[..k]
    {
      var id := t.order[k];
      var data := t.entries[id];
      var args := ParseOr(codec, data.args, EmptyObject);
      assert Materialized(t, codec)[..k + 1] == Materialized(t, codec)[..k] + [CallOf(id, data, codec)];
      toolCalls := toolCalls + [ToolCall(id, if Truthy(data.name) then data.name.value else "unknown", args)];
    }
    assert Materialized(t, codec)[..|t.order|] == Materialized(t, codec);
  }

  /** The tool calls a stream of events accumulates to: one per distinct call id in order of first
      arrival, with no id twice, each named by the last non-empty name announced for it (or
      `'unknown'`) and carrying the parse of all its fragments concatenated (or `{}`). */
  lemma MaterializedRule(events: seq<StreamEvent>, codec: Codec)
    ensures var calls := Materialized(TableOf(events), codec);
            var ids := TableOf(events).order;
            FirstSeenOrder(ids, IdsOf(events)) &&
            |calls| == |ids| &&
            forall k :: 0 <= k < |calls| ==>
              calls[k].id == ids[k] &&
              calls[k].name == LastName(events, ids[k]).GetOr("unknown") &&
              calls[k].arguments == ParseOr(codec, ArgsOf(events, ids[k]), EmptyObject)
  {
    TableOfDescribes(events);
  }
}

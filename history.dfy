/** The conversation history and its curation (packages/core/src/llm/chat/history.ts). */
module History {
  import opened Wrappers
  import opened Strings
  import opened MessageTypes

  // ---- Array.prototype.splice ----

  datatype Spliced<T> = Spliced(removed: seq<T>, rest: seq<T>)

  /** `a.splice(start, deleteCount)` on a list `s`: the elements removed and the list left behind,
      with the clamping of ECMA-262 (section 23.1.3.31, Array.prototype.splice): a negative start
      counts from the end and stops at 0, a start past the end stops at the end, and the delete count
      is clamped to [0, length - start]. */
  function Splice<T>(s: seq<T>, start: int, deleteCount: int): (r: Spliced<T>)
    ensures r.rest + r.removed == s || |r.removed| < |s|
  {
    var len := |s|;
    var actualStart := if start < 0 then (if len + start < 0 then 0 else len + start)
                       else (if start < len then start else len);
    var actualCount := if deleteCount < 0 then 0
                       else if deleteCount < len - actualStart then deleteCount else len - actualStart;
    Spliced(s[actualStart..actualStart + actualCount], s[..actualStart] + s[actualStart + actualCount..])
  }

  /** `splice(-n, n)`: for `n > 0` it removes the last `min(n, length)` elements, in their order, and
      keeps the prefix before them; for `n <= 0` it removes nothing. */
  lemma RemoveLastRule<T>(s: seq<T>, n: int)
    ensures var r := Splice(s, -n, n);
            var k := if n <= 0 then 0 else if n < |s| then n else |s|;
            r.removed == s[|s| - k..] && r.rest == s[..|s| - k] && r.rest + r.removed == s
  {
    var k := if n <= 0 then 0 else if n < |s| then n else |s|;
    assert s[..|s| - k] + s[|s| - k..] == s;
    if n <= 0 {
      assert s[..|s|] == s;
    }
  }

  // ---- curation ----

  predicate IsAssistant(m: Message) {
    m.role.AssistantRole?
  }

  /** One past the last position of the run of consecutive assistant messages that starts at `i`
      (`i` itself when `h[i]` is not an assistant message). */
  function RunEnd(h: seq<Message>, i: nat): (e: nat)
    requires i <= |h|
    ensures i <= e <= |h|
    decreases |h| - i
  {
    if i < |h| && IsAssistant(h[i]) then RunEnd(h, i + 1) else i
  }

  /** The run is made of assistant messages and is not followed by one. */
  lemma {:induction false} RunEndFacts(h: seq<Message>, i: nat)
    requires i <= |h|
    ensures var e := RunEnd(h, i);
            (forall k :: i <= k < e ==> IsAssistant(h[k])) && (e < |h| ==> !IsAssistant(h[e]))
    decreases |h| - i
  {
    if i < |h| && IsAssistant(h[i]) {
      RunEndFacts(h, i + 1);
    }
  }

  /** A stretch of assistant messages not followed by one is the run. */
  lemma {:induction false} RunEndIs(h: seq<Message>, i: nat, e: nat)
    requires i <= e <= |h| && forall k :: i <= k < e ==> IsAssistant(h[k])
    requires e == |h| || !IsAssistant(h[e])
    ensures RunEnd(h, i) == e
    decreases e - i
  {
    if i < e {
      RunEndIs(h, i + 1, e);
    }
  }

  predicate ValidAt(h: seq<Message>, k: nat)
    requires k < |h|
  {
    IsValidMessage(h[k])
  }

  /** Every message of `h[i..e]` is valid. */
  predicate ValidIn(h: seq<Message>, i: nat, e: nat)
    requires i <= e <= |h|
  {
    forall k :: i <= k < e ==> ValidAt(h, k)
  }

  predicate AllValid(ms: seq<Message>) {
    forall k :: 0 <= k < |ms| ==> IsValidMessage(ms[k])
  }

  /** The loop of `extractCuratedHistory` from position `i` on: a user or tool message is kept, a
      run of consecutive assistant messages is kept whole when all of them are valid and dropped
      whole otherwise, and any other message (system, or an unknown role) is dropped. */
  function CurateFrom(h: seq<Message>, i: nat): seq<Message>
    requires i <= |h|
    decreases |h| - i
  {
    if i == |h| then []
    else if h[i].role.UserRole? || h[i].role.ToolRole? then [h[i]] + CurateFrom(h, i + 1)
    else if IsAssistant(h[i]) then
      var e := RunEnd(h, i);
      (if ValidIn(h, i, e) then h[i..e] else []) + CurateFrom(h, e)
    else CurateFrom(h, i + 1)
  }

  /** `extractCuratedHistory(history)` */
  function Curated(h: seq<Message>): seq<Message> {
    CurateFrom(h, 0)
  }

  // ---- curation, message by message ----

  /** The first position of the run of consecutive assistant messages that ends at `i`. */
  function RunStart(h: seq<Message>, i: nat): (s: nat)
    requires i < |h|
    ensures s <= i
    decreases i
  {
    if 0 < i && IsAssistant(h[i - 1]) then RunStart(h, i - 1) else i
  }

  /** The curation rule for a single message, stated on its position alone: user and tool messages
      are kept, an assistant message is kept iff every message of its maximal assistant run is
      valid, and the others are dropped. */
  predicate KeptAt(h: seq<Message>, i: nat)
    requires i < |h|
  {
    match h[i].role
    case UserRole => true
    case ToolRole => true
    case AssistantRole => ValidIn(h, RunStart(h, i), RunEnd(h, i))
    case _ => false
  }

  /** The messages of `h` from position `lo` on that `KeptAt` keeps, in order. */
  function SelectFrom(h: seq<Message>, lo: nat): seq<Message>
    requires lo <= |h|
    decreases |h| - lo
  {
    if lo == |h| then [] else (if KeptAt(h, lo) then [h[lo]] else []) + SelectFrom(h, lo + 1)
  }

  /** Inside an assistant run `h[lo..j+1]` not preceded by an assistant message, the run starts at
      `lo`. */
  lemma {:induction false} RunStartIs(h: seq<Message>, lo: nat, j: nat)
    requires lo <= j < |h|
    requires forall k :: lo <= k <= j ==> IsAssistant(h[k])
    requires lo == 0 || !IsAssistant(h[lo - 1])
    ensures RunStart(h, j) == lo
    decreases j
  {
    if j > lo {
      RunStartIs(h, lo, j - 1);
    }
  }

  /** Inside a maximal assistant run `h[lo..e]`, a message is kept iff the whole run is valid. */
  lemma KeptInRun(h: seq<Message>, lo: nat, e: nat, j: nat)
    requires lo <= j < e <= |h|
    requires forall k :: lo <= k < e ==> IsAssistant(h[k])
    requires lo == 0 || !IsAssistant(h[lo - 1])
    requires e == |h| || !IsAssistant(h[e])
    ensures KeptAt(h, j) == ValidIn(h, lo, e)
  {
    RunStartIs(h, lo, j);
    RunEndIs(h, j, e);
  }

  /** A stretch whose every message is kept is selected in full. */
  lemma {:induction false} SelectAll(h: seq<Message>, j: nat, e: nat)
    requires j <= e <= |h|
    requires forall k :: j <= k < e ==> KeptAt(h, k)
    ensures SelectFrom(h, j) == h[j..e] + SelectFrom(h, e)
    decreases e - j
  {
    if j < e {
      SelectAll(h, j + 1, e);
      assert KeptAt(h, j);
      assert SelectFrom(h, j) == [h[j]] + SelectFrom(h, j + 1);
      assert [h[j]] + h[j + 1..e] == h[j..e];
    }
  }

  /** A stretch whose every message is dropped contributes nothing. */
  lemma {:induction false} SelectNone(h: seq<Message>, j: nat, e: nat)
    requires j <= e <= |h|
    requires forall k :: j <= k < e ==> !KeptAt(h, k)
    ensures SelectFrom(h, j) == SelectFrom(h, e)
    decreases e - j
  {
    if j < e {
      SelectNone(h, j + 1, e);
    }
  }

  /** The selection over a maximal assistant run: all of it, or none of it. */
  lemma RunSelect(h: seq<Message>, lo: nat, e: nat)
    requires lo <= e <= |h|
    requires forall k :: lo <= k < e ==> IsAssistant(h[k])
    requires lo == 0 || !IsAssistant(h[lo - 1])
    requires e == |h| || !IsAssistant(h[e])
    ensures SelectFrom(h, lo) == (if ValidIn(h, lo, e) then h[lo..e] else []) + SelectFrom(h, e)
  {
    forall j | lo <= j < e
      ensures KeptAt(h, j) == ValidIn(h, lo, e)
    {
      KeptInRun(h, lo, e, j);
    }
    if ValidIn(h, lo, e) {
      SelectAll(h, lo, e);
    } else {
      SelectNone(h, lo, e);
    }
  }

  /** From a position where no assistant run is cut, run-by-run curation agrees with the
      message-by-message rule. */
  lemma {:induction false} CurateSelects(h: seq<Message>, lo: nat)
    requires lo <= |h|
    requires lo == 0 || lo == |h| || !IsAssistant(h[lo - 1]) || !IsAssistant(h[lo])
    ensures CurateFrom(h, lo) == SelectFrom(h, lo)
    decreases |h| - lo, 1
  {
    if lo < |h| {
      if !IsAssistant(h[lo]) {
        CurateSelects(h, lo + 1);
      } else {
        CurateSelectsRun(h, lo);
      }
    }
  }

  lemma {:induction false} CurateSelectsRun(h: seq<Message>, lo: nat)
    requires lo < |h| && IsAssistant(h[lo])
    requires lo == 0 || !IsAssistant(h[lo - 1])
    ensures CurateFrom(h, lo) == SelectFrom(h, lo)
    decreases |h| - lo, 0
  {
    var e := RunEnd(h, lo);
    RunEndFacts(h, lo);
    CurateSelects(h, e);
    RunSelect(h, lo, e);
  }

  /** Curation keeps exactly the messages `KeptAt` keeps, in their order: the curated list is the
      subsequence of `h` that the message-by-message rule selects. */
  lemma CuratedSelects(h: seq<Message>)
    ensures Curated(h) == SelectFrom(h, 0)
  {
    CurateSelects(h, 0);
  }

  // ---- curation, run by run ----

  /** Runs in the `b` part of `a + b` are the runs of `b`, shifted. */
  lemma {:induction false} RunEndShift(a: seq<Message>, b: seq<Message>, j: nat)
    requires j <= |b|
    ensures RunEnd(a + b, |a| + j) == |a| + RunEnd(b, j)
    decreases |b| - j
  {
    if j < |b| {
      assert (a + b)[|a| + j] == b[j];
      if IsAssistant(b[j]) {
        RunEndShift(a, b, j + 1);
      }
    }
  }

  /** Curation of the `b` part of `a + b` is the curation of `b`. */
  lemma {:induction false} CurateShift(a: seq<Message>, b: seq<Message>, j: nat)
    requires j <= |b|
    ensures CurateFrom(a + b, |a| + j) == CurateFrom(b, j)
    decreases |b| - j, 1
  {
    if j < |b| {
      assert (a + b)[|a| + j] == b[j];
      if IsAssistant(b[j]) {
        CurateShiftRun(a, b, j);
      } else {
        CurateShift(a, b, j + 1);
      }
    }
  }

  lemma {:induction false} CurateShiftRun(a: seq<Message>, b: seq<Message>, j: nat)
    requires j < |b| && IsAssistant(b[j])
    ensures CurateFrom(a + b, |a| + j) == CurateFrom(b, j)
    decreases |b| - j, 0
  {
    assert (a + b)[|a| + j] == b[j];
    RunEndShift(a, b, j);
    var e := RunEnd(b, j);
    CurateShift(a, b, e);
    StretchShift(a, b, j, e);
  }

  /** A stretch `b[j..e]` of `b`, seen inside `a + b`. */
  lemma StretchShift(a: seq<Message>, b: seq<Message>, j: nat, e: nat)
    requires j <= e <= |b|
    ensures (a + b)[|a| + j..|a| + e] == b[j..e]
    ensures ValidIn(a + b, |a| + j, |a| + e) == ValidIn(b, j, e)
  {
    var h := a + b;
    assert forall k :: j <= k < e ==> ValidAt(h, |a| + k) == ValidAt(b, k);
    assert forall k :: |a| + j <= k < |a| + e ==> ValidAt(h, k) == ValidAt(b, k - |a|);
  }

  /** Runs inside `a` are the same in `a + b` when no run crosses the join. */
  lemma {:induction false} RunEndPrefix(a: seq<Message>, b: seq<Message>, i: nat)
    requires i < |a|
    requires b == [] || !IsAssistant(a[|a| - 1]) || !IsAssistant(b[0])
    ensures RunEnd(a + b, i) == RunEnd(a, i)
    decreases |a| - i
  {
    assert (a + b)[i] == a[i];
    if IsAssistant(a[i]) {
      if i + 1 < |a| {
        RunEndPrefix(a, b, i + 1);
      } else if b != [] {
        assert (a + b)[|a|] == b[0];
      }
    }
  }

  /** Curation of the `a` part of `a + b` is the curation of `a`, when no run crosses the join. */
  lemma {:induction false} CuratePrefix(a: seq<Message>, b: seq<Message>, i: nat)
    requires i <= |a|
    requires b == [] || a == [] || !IsAssistant(a[|a| - 1]) || !IsAssistant(b[0])
    ensures CurateFrom(a + b, i) == CurateFrom(a, i) + CurateFrom(a + b, |a|)
    decreases |a| - i, 1
  {
    if i < |a| {
      assert (a + b)[i] == a[i];
      if IsAssistant(a[i]) {
        CuratePrefixRun(a, b, i);
      } else {
        CuratePrefix(a, b, i + 1);
      }
    }
  }

  lemma {:induction false} CuratePrefixRun(a: seq<Message>, b: seq<Message>, i: nat)
    requires i < |a| && IsAssistant(a[i])
    requires b == [] || a == [] || !IsAssistant(a[|a| - 1]) || !IsAssistant(b[0])
    ensures CurateFrom(a + b, i) == CurateFrom(a, i) + CurateFrom(a + b, |a|)
    decreases |a| - i, 0
  {
    assert (a + b)[i] == a[i];
    RunEndPrefix(a, b, i);
    var e := RunEnd(a, i);
    CuratePrefix(a, b, e);
    StretchPrefix(a, b, i, e);
    var x := if ValidIn(a, i, e) then a[i..e] else [];
    assert x + (CurateFrom(a, e) + CurateFrom(a + b, |a|)) == (x + CurateFrom(a, e)) + CurateFrom(a + b, |a|);
  }

  /** A stretch `a[i..e]` of `a`, seen inside `a + b`. */
  lemma StretchPrefix(a: seq<Message>, b: seq<Message>, i: nat, e: nat)
    requires i <= e <= |a|
    ensures (a + b)[i..e] == a[i..e]
    ensures ValidIn(a + b, i, e) == ValidIn(a, i, e)
  {
    assert forall k :: i <= k < e ==> ValidAt(a + b, k) == ValidAt(a, k);
  }

  /** Curation splits where no assistant run is cut. */
  lemma CuratedSplit(a: seq<Message>, b: seq<Message>)
    requires a == [] || b == [] || !IsAssistant(a[|a| - 1]) || !IsAssistant(b[0])
    ensures Curated(a + b) == Curated(a) + Curated(b)
  {
    CuratePrefix(a, b, 0);
    CurateShift(a, b, 0);
  }

  /** A run of assistant messages alone curates to itself when all of them are valid, and to nothing
      otherwise. */
  lemma CuratedOfRun(run: seq<Message>)
    requires run != [] && forall k :: 0 <= k < |run| ==> IsAssistant(run[k])
    ensures Curated(run) == (if AllValid(run) then run else [])
  {
    RunEndIs(run, 0, |run|);
    assert run[0..|run|] == run;
    assert CurateFrom(run, |run|) == [];
    assert ValidIn(run, 0, |run|) == AllValid(run) by {
      assert forall k :: 0 <= k < |run| ==> ValidAt(run, k) == IsValidMessage(run[k]);
    }
  }

  /** The maximal-run rule: an assistant run bounded by non-assistant messages (or the ends) is
      curated in full when all its messages are valid, and dropped in full otherwise; curation is
      independent on both sides of it. */
  lemma CuratedRunRule(p: seq<Message>, run: seq<Message>, q: seq<Message>)
    requires run != [] && forall k :: 0 <= k < |run| ==> IsAssistant(run[k])
    requires p == [] || !IsAssistant(p[|p| - 1])
    requires q == [] || !IsAssistant(q[0])
    ensures Curated(p + run + q) == Curated(p) + (if AllValid(run) then run else []) + Curated(q)
  {
    assert p + run + q == p + (run + q);
    CuratedRunLeft(p, run + q);
    CuratedRunRight(run, q);
  }

  lemma CuratedRunLeft(p: seq<Message>, rest: seq<Message>)
    requires rest != [] && IsAssistant(rest[0])
    requires p == [] || !IsAssistant(p[|p| - 1])
    ensures Curated(p + rest) == Curated(p) + Curated(rest)
  {
    CuratedSplit(p, rest);
  }

  lemma CuratedRunRight(run: seq<Message>, q: seq<Message>)
    requires run != [] && forall k :: 0 <= k < |run| ==> IsAssistant(run[k])
    requires q == [] || !IsAssistant(q[0])
    ensures Curated(run + q) == (if AllValid(run) then run else []) + Curated(q)
  {
    CuratedSplit(run, q);
    CuratedOfRun(run);
  }

  /** A message curation keeps: a user or tool message, or a valid assistant message. */
  predicate Admissible(m: Message) {
    m.role.UserRole? || m.role.ToolRole? || (IsAssistant(m) && IsValidMessage(m))
  }

  lemma {:induction false} CurateShape(h: seq<Message>, i: nat)
    requires i <= |h|
    ensures forall k :: 0 <= k < |CurateFrom(h, i)| ==> Admissible(CurateFrom(h, i)[k])
    decreases |h| - i
  {
    if i < |h| {
      if IsAssistant(h[i]) {
        var e := RunEnd(h, i);
        RunEndFacts(h, i);
        CurateShape(h, e);
        if ValidIn(h, i, e) {
          assert forall k :: 0 <= k < e - i ==> h[i..e][k] == h[i + k] && ValidAt(h, i + k);
        }
      } else {
        CurateShape(h, i + 1);
      }
    }
  }

  /** The empty history curates to the empty list; curation never keeps a system message, an
      invalid assistant message or a message of an unknown role. */
  lemma CuratedShape(h: seq<Message>)
    ensures Curated([]) == []
    ensures forall k :: 0 <= k < |Curated(h)| ==> Admissible(Curated(h)[k])
  {
    CurateShape(h, 0);
  }

  lemma {:induction false} CurateFixpoint(x: seq<Message>, i: nat)
    requires i <= |x| && forall k :: 0 <= k < |x| ==> Admissible(x[k])
    ensures CurateFrom(x, i) == x[i..]
    decreases |x| - i
  {
    if i < |x| {
      if IsAssistant(x[i]) {
        var e := RunEnd(x, i);
        RunEndFacts(x, i);
        CurateFixpoint(x, e);
        assert x[i..e] + x[e..] == x[i..];
      } else {
        CurateFixpoint(x, i + 1);
        assert [x[i]] + x[i + 1..] == x[i..];
      }
    }
  }

  /** Curation is idempotent: a curated list is its own curation. */
  lemma CuratedIdempotent(h: seq<Message>)
    ensures Curated(Curated(h)) == Curated(h)
  {
    CuratedShape(h);
    CurateFixpoint(Curated(h), 0);
  }

  /** The user and tool messages of `h`, in order. */
  function UserAndTool(h: seq<Message>): seq<Message>
    decreases |h|
  {
    if h == [] then []
    else (if h[0].role.UserRole? || h[0].role.ToolRole? then [h[0]] else []) + UserAndTool(h[1..])
  }

  lemma {:induction false} UserAndToolAppend(a: seq<Message>, b: seq<Message>)
    ensures UserAndTool(a + b) == UserAndTool(a) + UserAndTool(b)
    decreases |a|
  {
    if a != [] {
      assert (a + b)[1..] == a[1..] + b;
      UserAndToolAppend(a[1..], b);
    } else {
      assert a + b == b;
    }
  }

  /** A list of assistant messages holds no user or tool message. */
  lemma {:induction false} UserAndToolOfAssistants(run: seq<Message>)
    requires forall k :: 0 <= k < |run| ==> IsAssistant(run[k])
    ensures UserAndTool(run) == []
    decreases |run|
  {
    if run != [] {
      UserAndToolOfAssistants(run[1..]);
    }
  }

  lemma {:induction false} CurateKeepsUserAndTool(h: seq<Message>, i: nat)
    requires i <= |h|
    ensures UserAndTool(CurateFrom(h, i)) == UserAndTool(h[i..])
    decreases |h| - i
  {
    if i < |h| {
      assert h[i..][0] == h[i];
      if IsAssistant(h[i]) {
        var e := RunEnd(h, i);
        RunEndFacts(h, i);
        var kept := if ValidIn(h, i, e) then h[i..e] else [];
        CurateKeepsUserAndTool(h, e);
        UserAndToolAppend(kept, CurateFrom(h, e));
        UserAndToolAppend(h[i..e], h[e..]);
        assert h[i..e] + h[e..] == h[i..];
        UserAndToolOfAssistants(h[i..e]);
        UserAndToolOfAssistants(kept);
      } else {
        assert h[i..][1..] == h[i + 1..];
        CurateKeepsUserAndTool(h, i + 1);
        UserAndToolAppend(if h[i].role.UserRole? || h[i].role.ToolRole? then [h[i]] else [], CurateFrom(h, i + 1));
      }
    } else {
      assert h[i..] == [];
    }
  }

  /** Curation keeps every user and tool message, in its original order. */
  lemma CuratedKeepsUserAndTool(h: seq<Message>)
    ensures UserAndTool(Curated(h)) == UserAndTool(h)
  {
    CurateKeepsUserAndTool(h, 0);
    assert h[0..] == h;
  }

  /** The inner loop of `extractCuratedHistory`: from an assistant message at `i`, gather the run
      of consecutive assistant messages and whether all of them are valid. */
  method CollectAssistantRun(history: seq<Message>, i: nat) returns (assistantMessages: seq<Message>, isValid: bool, next: nat)
    requires i <= |history|
    ensures next == RunEnd(history, i) && assistantMessages == history[i..next]
    ensures isValid == ValidIn(history, i, next)
  {
    assistantMessages, isValid, next := [], true, i;
    while next < |history| && history[next].role.AssistantRole?
      invariant i <= next <= |history|
      invariant assistantMessages == history[i..next]
      invariant forall k :: i <= k < next ==> IsAssistant(history[k])
      invariant isValid <==> ValidIn(history, i, next)
      decreases |history| - next
    {
      assistantMessages := assistantMessages + [history[next]];
      assert ValidAt(history, next) == IsValidMessage(history[next]);
      if isValid && !IsValidMessage(history[next]) {
        isValid := false;
      }
      next := next + 1;
    }
    RunEndIs(history, i, next);
  }

  /** `extractCuratedHistory`: the outer loop walks the history, keeping user and tool messages,
      keeping or dropping each assistant run whole, and skipping the rest. */
  method ExtractCuratedHistory(history: seq<Message>) returns (curated: seq<Message>)
    ensures curated == Curated(history)
  {
    if |history| == 0 {
      return [];
    }
    curated := [];
    var i := 0;
    while i < |history|
      invariant 0 <= i <= |history|
      invariant Curated(history) == curated + CurateFrom(history, i)
      decreases |history| - i
    {
      var message := history[i];
      if message.role.UserRole? || message.role.ToolRole? {
        curated := curated + [message];
        i := i + 1;
      } else if message.role.AssistantRole? {
        var assistantMessages, isValid, next := CollectAssistantRun(history, i);
        if isValid {
          curated := curated + assistantMessages;
        }
        i := next;
      } else {
        i := i + 1;
      }
    }
  }

  // ---- validation and the system message ----

  /** The role string of a message. */
  function RoleName(r: Role): string {
    match r
    case UserRole => "user"
    case AssistantRole => "assistant"
    case SystemRole => "system"
    case ToolRole => "tool"
    case OtherRole(name) => name
  }

  /** The outcome of `validateHistory`: the first message whose role is none of the four fails it. */
  function Validation(h: seq<Message>): Outcome<string>
    decreases |h|
  {
    if h == [] then Pass
    else if h[0].role.OtherRole? then Fail("Invalid role: " + RoleName(h[0].role))
    else Validation(h[1..])
  }

  /** `validateHistory` passes iff every role is one of the four, and otherwise throws naming the
      role of the first message that has another. */
  lemma {:induction false} ValidationRule(h: seq<Message>)
    ensures Validation(h).Pass? <==> forall i :: 0 <= i < |h| ==> !h[i].role.OtherRole?
    ensures Validation(h).Fail? ==>
              exists i :: 0 <= i < |h| && h[i].role.OtherRole?
                          && Validation(h).error == "Invalid role: " + h[i].role.name
                          && forall j :: 0 <= j < i ==> !h[j].role.OtherRole?
    decreases |h|
  {
    if h != [] && !h[0].role.OtherRole? {
      ValidationRule(h[1..]);
      if Validation(h).Fail? {
        var i :| 0 <= i < |h[1..]| && h[1..][i].role.OtherRole?
                 && Validation(h[1..]).error == "Invalid role: " + h[1..][i].role.name
                 && forall j :: 0 <= j < i ==> !h[1..][j].role.OtherRole?;
        assert forall j :: 0 <= j < i + 1 ==> !h[j].role.OtherRole? by {
          forall j | 0 <= j < i + 1
            ensures !h[j].role.OtherRole?
          {
            if j > 0 {
              assert h[j] == h[1..][j - 1];
            }
          }
        }
        assert h[i + 1] == h[1..][i];
      }
    } else if h != [] {
      assert h[0].role.OtherRole?;
    }
  }

  /** `validateHistory`: a `for` loop that throws at the first unknown role. */
  method ValidateHistory(history: seq<Message>) returns (r: Outcome<string>)
    ensures r == Validation(history)
  {
    for i := 0 to |history|
      invariant Validation(history) == Validation(history[i..])
    {
      assert history[i..][0] == history[i];
      assert history[i..][1..] == history[i + 1..];
      if history[i].role.OtherRole? {
        return Fail("Invalid role: " + RoleName(history[i].role));
      }
    }
    assert history[|history|..] == [];
    return Pass;
  }

  /** The position of the first system message of `h`. */
  function FirstSystem(h: seq<Message>): (r: Option<nat>)
    ensures r.Some? ==> r.value < |h| && h[r.value].role.SystemRole?
                        && forall j :: 0 <= j < r.value ==> !h[j].role.SystemRole?
    ensures r.None? <==> forall j :: 0 <= j < |h| ==> !h[j].role.SystemRole?
    decreases |h|
  {
    if h == [] then None
    else if h[0].role.SystemRole? then Some(0)
    else
      match FirstSystem(h[1..])
      case None => None
      case Some(i) => Some(i + 1)
  }

  /** `extractSystemMessage`: the text parts of the first system message joined with a newline, or
      nothing when there is no system message. */
  function ExtractSystemMessage(h: seq<Message>): (r: Option<string>)
    ensures r.None? <==> forall j :: 0 <= j < |h| ==> !h[j].role.SystemRole?
  {
    match FirstSystem(h)
    case None => None
    case Some(i) => Some(Join(TextsOf(h[i].content), "\n"))
  }

  /** The system message `extractSystemMessage` returns is the first one's text. */
  lemma SystemMessageIsFirst(h: seq<Message>, i: nat)
    requires i < |h| && h[i].role.SystemRole?
    requires forall j :: 0 <= j < i ==> !h[j].role.SystemRole?
    ensures ExtractSystemMessage(h) == Some(Join(TextsOf(h[i].content), "\n"))
  {
  }

  // ---- the history object ----

  /** `ChatHistory`: a list of messages updated in place. */
  class ChatHistory {
    var messages: seq<Message>

    /** `new ChatHistory(initialMessages?)`: a copy of the initial messages, or the empty list. */
    constructor(initialMessages: Option<seq<Message>>)
      ensures messages == (if initialMessages.Some? then initialMessages.value else [])
    {
      messages := if initialMessages.Some? then initialMessages.value else [];
    }

    method Add(message: Message)
      modifies this
      ensures messages == old(messages) + [message]
    {
      messages := messages + [message];
    }

    method AddAll(ms: seq<Message>)
      modifies this
      ensures messages == old(messages) + ms
    {
      messages := messages + ms;
    }

    method Clear()
      modifies this
      ensures messages == []
    {
      messages := [];
    }

    /** `getAll`: a copy of the list. */
    method GetAll() returns (r: seq<Message>)
      ensures r == messages
    {
      r := messages;
    }

    /** `getCurated` */
    method GetCurated() returns (r: seq<Message>)
      ensures r == Curated(messages)
    {
      r := ExtractCuratedHistory(messages);
    }

    method SetMessages(ms: seq<Message>)
      modifies this
      ensures messages == ms
    {
      messages := ms;
    }

    /** `getLast`: the last message, or undefined on an empty history. */
    method GetLast() returns (r: Option<Message>)
      ensures |messages| == 0 ==> r.None?
      ensures |messages| > 0 ==> r == Some(messages[|messages| - 1])
    {
      if |messages| == 0 {
        r := None;
      } else {
        r := Some(messages[|messages| - 1]);
      }
    }

    function Length(): (n: nat)
      reads this
      ensures n == |messages|
    {
      |messages|
    }

    /** `removeLast(count = 1)`: `splice(-count, count)`. */
    method RemoveLast(count: Option<int>) returns (removed: seq<Message>)
      modifies this
      ensures var n := count.GetOr(1);
              Spliced(removed, messages) == Splice(old(messages), -n, n)
    {
      var n := count.GetOr(1);
      var r := Splice(messages, -n, n);
      removed, messages := r.removed, r.rest;
    }
  }
}

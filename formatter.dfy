/** The transcript formatter: word-based trimming, the numbered execution trace of
    one agent turn, and the search for the text of the final reply. Printing is
    replaced by returning the trace entries. */
module Formatter {
  import opened Wrappers
  import opened Words

  /** `trim_text`'s default `max_words`. */
  const DefaultMaxWords: int := 30

  /** What `get_response_text` returns when no message has content. */
  const NoResponse: string := "(No response)"

  // ---------------------------------------------------------------------------
  // trim_text
  // ---------------------------------------------------------------------------

  /** How many items the Python slice `xs[:k]` keeps of a list of length `n`:
      a negative `k` counts from the end. */
  function SliceEnd(n: nat, k: int): (m: nat)
    ensures m <= n
    ensures k >= 0 ==> m == if k <= n then k else n
    ensures k < 0 ==> m == if n + k >= 0 then n + k else 0
  {
    if k >= 0 then (if k <= n then k else n)
    else if n + k >= 0 then n + k else 0
  }

  /** `trim_text(text, max_words)`: the empty text gives ""; a text of at most
      `maxWords` words is returned unchanged, whitespace and all; a longer one
      becomes its first words (as many as the slice `words[:max_words]` keeps)
      joined by single spaces, followed by "...". */
  function TrimText(text: string, maxWords: int := DefaultMaxWords): (r: string)
    ensures text == "" ==> r == ""
    ensures text != "" && |Split(text)| <= maxWords ==> r == text
    ensures text != "" && |Split(text)| > maxWords ==>
              var ws := Split(text);
              var kept := SliceEnd(|ws|, maxWords);
              && r == Join(ws[..kept]) + "..."
              && |r| >= 3 && r[|r| - 3..] == "..."
              && (kept == 0 ==> r == "...")
              && (kept > 0 ==> Split(r) == ws[..kept - 1] + [ws[kept - 1] + "..."])
  {
    if text == "" then ""
    else
      var ws := Split(text);
      if |ws| <= maxWords then text
      else
        var kept := SliceEnd(|ws|, maxWords);
        if kept > 0 then
          SplitJoinSuffix(ws[..kept], "...");
          Join(ws[..kept]) + "..."
        else
          Join(ws[..kept]) + "..."
  }

  /** A truncated text keeps exactly `maxWords` words, so for `maxWords >= 0`
      trimming twice is trimming once. */
  lemma TrimTextIdempotent(text: string, maxWords: int)
    requires maxWords >= 0
    ensures TrimText(TrimText(text, maxWords), maxWords) == TrimText(text, maxWords)
  {
    var r := TrimText(text, maxWords);
    if text != "" && |Split(text)| > maxWords {
      if maxWords == 0 {
        SplitJoin(["..."]);
        assert Join(["..."]) == "...";
      }
    }
  }

  // ---------------------------------------------------------------------------
  // print_turn_history
  // ---------------------------------------------------------------------------

  /** One entry of an AI message's `tool_calls`: the `name` and the rendered `args`
      (`json.dumps` of a non-empty argument dictionary), each possibly missing. */
  datatype ToolCall = ToolCall(name: Option<string>, args: Option<string>)

  /** The message classes the formatter distinguishes by type name; every other
      class (a system message, say) is an `OtherMessage`. */
  datatype Message =
    | HumanMessage(content: string)
    | AIMessage(content: string, toolCalls: seq<ToolCall>)
    | ToolMessage(content: string, name: string)
    | OtherMessage(content: string)

  /** The two lines printed for one tool call: its name and its trimmed arguments. */
  datatype CallLine = CallLine(tool: string, args: string)

  /** What one numbered step of the trace shows. */
  datatype Event =
    | UserInput(text: string)
    | AiToolCalls(calls: seq<CallLine>)
    | AiResponse(text: string)
    | ToolResult(tool: string, text: string)

  /** One numbered step of the trace. */
  datatype Entry = Entry(step: nat, event: Event)

  /** A tool call as printed: "unknown" for a missing name, "(no args)" for missing
      or empty arguments, the arguments trimmed. */
  function CallLineOf(c: ToolCall): CallLine {
    CallLine(c.name.GetOr("unknown"), TrimText(c.args.GetOr("(no args)")))
  }

  /** The printed lines of a list of tool calls, one per call, in order. */
  function CallLines(cs: seq<ToolCall>): (ls: seq<CallLine>)
    ensures |ls| == |cs| && forall k :: 0 <= k < |cs| ==> ls[k] == CallLineOf(cs[k])
  {
    seq(|cs|, k requires 0 <= k < |cs| => CallLineOf(cs[k]))
  }

  /** The step a message produces, if any. A human message, an AI message with tool
      calls, an AI message with content and a tool message each take one step; tool
      calls win over content; anything else takes none. */
  function EventOf(m: Message): (e: Option<Event>)
    ensures e.None? <==> m.OtherMessage? || (m.AIMessage? && m.toolCalls == [] && m.content == "")
    ensures m.AIMessage? && m.toolCalls != [] ==>
              && e.Some? && e.value.AiToolCalls? && |e.value.calls| == |m.toolCalls|
              && forall k :: 0 <= k < |m.toolCalls| ==>
                   e.value.calls[k] == CallLine(m.toolCalls[k].name.GetOr("unknown"),
                                                TrimText(m.toolCalls[k].args.GetOr("(no args)")))
    ensures m.AIMessage? && m.toolCalls == [] && m.content != "" ==> e == Some(AiResponse(TrimText(m.content)))
    ensures m.HumanMessage? ==> e == Some(UserInput(TrimText(m.content)))
    ensures m.ToolMessage? ==> e == Some(ToolResult(m.name, TrimText(m.content)))
  {
    match m
    case HumanMessage(content) => Some(UserInput(TrimText(content)))
    case AIMessage(content, calls) =>
      if calls != [] then Some(AiToolCalls(CallLines(calls)))
      else if content != "" then Some(AiResponse(TrimText(content)))
      else None
    case ToolMessage(content, name) => Some(ToolResult(name, TrimText(content)))
    case OtherMessage(_) => None
  }

  /** How many steps a list of messages takes. */
  function StepCount(ms: seq<Message>): nat {
    if ms == [] then 0
    else (if EventOf(ms[0]).Some? then 1 else 0) + StepCount(ms[1..])
  }

  /** The trace of `ms` when its first step is numbered `step`. */
  function Trace(ms: seq<Message>, step: nat): seq<Entry> {
    if ms == [] then []
    else
      match EventOf(ms[0])
      case None => Trace(ms[1..], step)
      case Some(e) => [Entry(step, e)] + Trace(ms[1..], step + 1)
  }

  /** The trace has one entry per step-taking message, numbered consecutively from
      `step`. */
  lemma {:induction false} TraceNumbering(ms: seq<Message>, step: nat)
    ensures |Trace(ms, step)| == StepCount(ms)
    ensures forall i :: 0 <= i < |Trace(ms, step)| ==> Trace(ms, step)[i].step == step + i
  {
    if ms != [] {
      TraceNumbering(ms[1..], step + 1);
      TraceNumbering(ms[1..], step);
    }
  }

  /** Tracing two lists one after the other: the second continues the numbering
      where the first stopped. */
  lemma {:induction false} TraceAppend(a: seq<Message>, b: seq<Message>, step: nat)
    ensures Trace(a + b, step) == Trace(a, step) + Trace(b, step + StepCount(a))
    ensures StepCount(a + b) == StepCount(a) + StepCount(b)
  {
    if a == [] {
      assert a + b == b;
    } else {
      assert (a + b)[0] == a[0];
      assert (a + b)[1..] == a[1..] + b;
      TraceAppend(a[1..], b, step);
      TraceAppend(a[1..], b, step + 1);
    }
  }

  /** The trace from message `i` on: the step of message `i`, if it takes one, and
      then the trace of the rest. */
  lemma TraceFrom(ms: seq<Message>, i: nat, step: nat)
    requires i < |ms|
    ensures Trace(ms[i..], step) ==
              match EventOf(ms[i])
              case None => Trace(ms[i + 1..], step)
              case Some(e) => [Entry(step, e)] + Trace(ms[i + 1..], step + 1)
  {
    assert ms[i..][0] == ms[i];
    assert ms[i..][1..] == ms[i + 1..];
  }

  /** The inner loop of `print_turn_history`: the line pair of each tool call, in
      order. */
  method PrintToolCalls(calls: seq<ToolCall>) returns (lines: seq<CallLine>)
    ensures lines == CallLines(calls)
    ensures |lines| == |calls|
    ensures forall k :: 0 <= k < |calls| ==>
              lines[k] == CallLine(calls[k].name.GetOr("unknown"), TrimText(calls[k].args.GetOr("(no args)")))
  {
    lines := [];
    for j := 0 to |calls|
      invariant |lines| == j
      invariant forall k :: 0 <= k < j ==> lines[k] == CallLineOf(calls[k])
    {
      lines := lines + [CallLineOf(calls[j])];
    }
  }

  /** `print_turn_history(result, turn_number)`, returning the entries it prints
      instead of printing them: `step` starts at 1 and advances once per step-taking
      message. */
  method PrintTurnHistory(messages: seq<Message>) returns (trace: seq<Entry>)
    ensures trace == Trace(messages, 1)
    ensures |trace| == StepCount(messages)
    ensures forall i :: 0 <= i < |trace| ==> trace[i].step == i + 1
  {
    trace := [];
    var step: nat := 1;
    for i := 0 to |messages|
      invariant trace + Trace(messages[i..], step) == Trace(messages, 1)
    {
      TraceFrom(messages, i, step);
      match messages[i]
      case HumanMessage(content) =>
        trace := trace + [Entry(step, UserInput(TrimText(content)))];
        step := step + 1;
      case AIMessage(content, calls) =>
        if calls != [] {
          var lines := PrintToolCalls(calls);
          trace := trace + [Entry(step, AiToolCalls(lines))];
          step := step + 1;
        } else if content != "" {
          trace := trace + [Entry(step, AiResponse(TrimText(content)))];
          step := step + 1;
        }
      case ToolMessage(content, name) =>
        trace := trace + [Entry(step, ToolResult(name, TrimText(content)))];
        step := step + 1;
      case OtherMessage(_) =>
    }
    assert messages[|messages|..] == [];
    TraceNumbering(messages, 1);
  }

  // ---------------------------------------------------------------------------
  // get_response_text
  // ---------------------------------------------------------------------------

  /** `k` is the last message whose content is non-empty. */
  predicate IsLastWithContent(ms: seq<Message>, k: int) {
    && 0 <= k < |ms|
    && ms[k].content != ""
    && forall j :: k < j < |ms| ==> ms[j].content == ""
  }

  /** `get_response_text(result)` as written: the content of the last message of ANY
      type whose content is non-empty, or "(No response)". */
  method GetResponseText(messages: seq<Message>) returns (text: string)
    ensures (forall k :: 0 <= k < |messages| ==> messages[k].content == "") ==> text == NoResponse
    ensures forall k :: IsLastWithContent(messages, k) ==> text == messages[k].content
  {
    var i := |messages|;
    while i > 0
      invariant 0 <= i <= |messages|
      invariant forall j :: i <= j < |messages| ==> messages[j].content == ""
    {
      i := i - 1;
      if messages[i].content != "" {
        return messages[i].content;
      }
    }
    return NoResponse;
  }

  /** `k` is the last AI message whose content is non-empty. */
  predicate IsLastAiWithContent(ms: seq<Message>, k: int) {
    && 0 <= k < |ms|
    && ms[k].AIMessage? && ms[k].content != ""
    && forall j :: k < j < |ms| ==> !(ms[j].AIMessage? && ms[j].content != "")
  }

  /** The search its comment and docstring describe: the content of the last AI
      message with content, or "(No response)". */
  method GetAiResponseText(messages: seq<Message>) returns (text: string)
    ensures (forall k :: 0 <= k < |messages| ==> !(messages[k].AIMessage? && messages[k].content != "")) ==>
              text == NoResponse
    ensures forall k :: IsLastAiWithContent(messages, k) ==> text == messages[k].content
  {
    var i := |messages|;
    while i > 0
      invariant 0 <= i <= |messages|
      invariant forall j :: i <= j < |messages| ==> !(messages[j].AIMessage? && messages[j].content != "")
    {
      i := i - 1;
      if messages[i].AIMessage? && messages[i].content != "" {
        return messages[i].content;
      }
    }
    return NoResponse;
  }

  /** A turn whose only AI message carries tool calls and no text: as written, the
      user's own input is reported as the response; the AI-only search reports that
      there is none. */
  method ResponseTextDiscrepancy() returns (asWritten: string, intended: string)
    ensures asWritten == "hi" && intended == NoResponse
  {
    var turn := [HumanMessage("hi"), AIMessage("", [ToolCall(Some("load_profile"), None)])];
    assert IsLastWithContent(turn, 0);
    asWritten := GetResponseText(turn);
    intended := GetAiResponseText(turn);
  }
}

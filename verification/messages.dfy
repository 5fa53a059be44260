/** Chat messages as the workflow passes them around, and the helpers that
    assemble and summarise message chains (utils/message_builder.py). */
module Messages {
  import opened Common

  /** A tool call requested by the model; `name` is None when the call carries no name. */
  datatype ToolCall = ToolCall(name: Option<string>, args: Payload)

  /** The four message kinds of the conversation, by their `type` tag. */
  datatype Message =
    | System(content: string)
    | Human(content: string)
    | Ai(content: string, toolCalls: seq<ToolCall>)
    | Tool(content: string, name: string)

  function TypeTag(m: Message): string {
    match m
    case System(_) => "system"
    case Human(_) => "human"
    case Ai(_, _) => "ai"
    case Tool(_, _) => "tool"
  }

  /** `tc.get("name", "unknown")`. */
  function CallName(tc: ToolCall): string {
    tc.name.GetOr("unknown")
  }

  /** The names of a list of tool calls, unnamed ones reported as "unknown". */
  function CallNames(calls: seq<ToolCall>): (r: seq<string>)
    ensures |r| == |calls|
    ensures forall i :: 0 <= i < |calls| ==> r[i] == CallName(calls[i])
  {
    seq(|calls|, i requires 0 <= i < |calls| => CallName(calls[i]))
  }

  /** `build_base_messages`: the system prompt first, then the conversation in order. */
  function BaseMessages(messages: seq<Message>, systemPrompt: string): (r: seq<Message>)
    ensures |r| == 1 + |messages|
    ensures r[0] == System(systemPrompt)
    ensures forall i :: 0 <= i < |messages| ==> r[i + 1] == messages[i]
  {
    [System(systemPrompt)] + messages
  }

  /** The list object that `add_instruction` appends to and hands back. */
  class MessageChain {
    var items: seq<Message>

    constructor (items0: seq<Message>)
      ensures items == items0
    {
      items := items0;
    }

    /** `add_instruction`: one system message joins the end of this same list,
        which is returned. */
    method AddInstruction(instruction: string) returns (r: MessageChain)
      modifies this
      ensures r == this
      ensures items == old(items) + [System(instruction)]
    {
      items := items + [System(instruction)];
      r := this;
    }
  }

  /** The summary line a message contributes, if any. */
  function SummaryLine(m: Message): (r: Option<string>)
    ensures r.None? <==> m.System? || (m.Ai? && m.toolCalls == [] && m.content == "")
    ensures m.Human? ==> r == Some("User: " + m.content)
    ensures m.Tool? ==> |r.value| <= |"Tool result: "| + 200
  {
    match m
    case Human(c) => Some("User: " + c)
    case Ai(c, calls) =>
      if |calls| > 0 then Some("Agent used tools: " + Join(CallNames(calls), ", "))
      else if c != "" then Some("Agent: " + Take(c, 200))
      else None
    case Tool(c, _) => Some("Tool result: " + Take(c, 200))
    case System(_) => None
  }

  /** The lines collected for a conversation, in message order. */
  function SummaryLines(messages: seq<Message>): (r: seq<string>)
    ensures |r| <= |messages|
    decreases |messages|
  {
    if |messages| == 0 then []
    else
      var last := messages[|messages| - 1];
      SummaryLines(messages[..|messages| - 1]) + (if SummaryLine(last).Some? then [SummaryLine(last).value] else [])
  }

  /** Only system messages and AI messages with neither tool calls nor content
      are skipped: every other message yields exactly one line. */
  lemma {:induction false} SummaryLinesCount(messages: seq<Message>)
    ensures |SummaryLines(messages)| == CountIf(messages, m => SummaryLine(m).Some?)
    ensures (forall i :: 0 <= i < |messages| ==> !messages[i].System? && !(messages[i].Ai? && messages[i].toolCalls == [] && messages[i].content == ""))
            ==> |SummaryLines(messages)| == |messages|
    decreases |messages|
  {
    if |messages| > 0 {
      var init := messages[..|messages| - 1];
      SummaryLinesCount(init);
      if forall i :: 0 <= i < |messages| ==> !messages[i].System? && !(messages[i].Ai? && messages[i].toolCalls == [] && messages[i].content == "") {
        assert forall i :: 0 <= i < |init| ==> init[i] == messages[i];
      }
    }
  }

  /** Every summary line starts with one of the four fixed prefixes. */
  lemma {:induction false} SummaryLinePrefixes(messages: seq<Message>)
    ensures forall l :: l in SummaryLines(messages) ==>
      "User: " <= l || "Agent used tools: " <= l || "Agent: " <= l || "Tool result: " <= l
    decreases |messages|
  {
    if |messages| > 0 {
      SummaryLinePrefixes(messages[..|messages| - 1]);
    }
  }

  /** `build_conversation_summary`: the last `max_messages` lines joined by
      newlines (all lines when it is 0, as Python's `[-0:]` is the whole list). */
  method ConversationSummary(messages: seq<Message>, maxMessages: int) returns (summary: string)
    ensures summary == Join(PySuffix(SummaryLines(messages), maxMessages), "\n")
  {
    var lines: seq<string> := [];
    var i := 0;
    while i < |messages|
      invariant 0 <= i <= |messages|
      invariant lines == SummaryLines(messages[..i])
    {
      var line := SummaryLine(messages[i]);
      if line.Some? {
        lines := lines + [line.value];
      }
      assert messages[..i + 1][..i] == messages[..i];
      i := i + 1;
    }
    assert messages[..i] == messages;
    summary := Join(PySuffix(lines, maxMessages), "\n");
  }

  /** The kept lines: all of them for 0, otherwise the last min(k, n). */
  lemma SummaryWindow(lines: seq<string>, k: int)
    ensures k == 0 ==> PySuffix(lines, k) == lines
    ensures k >= 1 ==> PySuffix(lines, k) == lines[|lines| - (if k < |lines| then k else |lines|)..]
  {
    PySuffixShape(lines, k);
  }

  /** `has_tool_results`: scans the last `look_back` messages, newest first. */
  method HasToolResults(messages: seq<Message>, lookBack: int) returns (found: bool)
    ensures found <==> exists m :: m in PySuffix(messages, lookBack) && m.Tool?
  {
    var window := PySuffix(messages, lookBack);
    var i := |window|;
    while i > 0
      invariant 0 <= i <= |window|
      invariant forall j :: i <= j < |window| ==> !window[j].Tool?
    {
      i := i - 1;
      if window[i].Tool? {
        return true;
      }
    }
    return false;
  }
}

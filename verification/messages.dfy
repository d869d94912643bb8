/**
 * Conversion between the agent's session messages and the message shapes of
 * the language-model SDK (pkg/providers/fantasy_messages.go). Both directions
 * are pure: the SDK types appear here as plain datatypes.
 */
module Messages {
  import opened Wrappers

  /** The `Function` part of a tool call. */
  datatype FunctionCall = FunctionCall(name: string, arguments: string)

  /**
   * A tool call of a session message. `argumentsJson` stands for the JSON
   * text Go's `json.Marshal` makes of a non-nil `Arguments` map; the encoder
   * is not part of this model.
   */
  datatype ToolCall = ToolCall(
    id: string, kind: string, name: string,
    fn: Option<FunctionCall>, argumentsJson: Option<string>)

  /** A session message; `systemParts` holds the texts of its system blocks. */
  datatype Message = Message(
    role: string, content: string, reasoningContent: string,
    systemParts: seq<string>, toolCalls: seq<ToolCall>, toolCallId: string)

  /** The roles of an SDK message. */
  datatype Role = SystemRole | UserRole | AssistantRole | ToolRole

  /** The parts of an SDK message the conversion produces. */
  datatype Part =
    | TextPart(text: string)
    | ReasoningPart(text: string)
    | ToolCallPart(callId: string, toolName: string, input: string)
    | ToolResultPart(resultCallId: string, output: string)

  /** An SDK message. `NewSystemMessage` and `NewUserMessage` hold one text part. */
  datatype SdkMessage = SdkMessage(role: Role, parts: seq<Part>)

  /** A plain session message with the given role and text and nothing else. */
  function PlainMessage(role: string, content: string): Message {
    Message(role, content, "", [], [], "")
  }

  /** toolCallName: the call's own name, else its function's name, else "". */
  function ToolCallName(tc: ToolCall): (name: string)
    ensures tc.name != "" ==> name == tc.name
    ensures tc.name == "" && tc.fn.Some? ==> name == tc.fn.value.name
    ensures tc.name == "" && tc.fn.None? ==> name == ""
  {
    if tc.name != "" then tc.name
    else if tc.fn.Some? then tc.fn.value.name
    else ""
  }

  /** The input text of a tool call: the function's arguments, else the JSON of the argument map, else "". */
  function ToolInput(tc: ToolCall): string {
    if tc.fn.Some? then tc.fn.value.arguments
    else if tc.argumentsJson.Some? then tc.argumentsJson.value
    else ""
  }

  /** One ToolCallPart per tool call, in order. */
  function ToolCallParts(calls: seq<ToolCall>): (parts: seq<Part>)
    ensures |parts| == |calls|
    ensures forall k :: 0 <= k < |calls| ==>
      parts[k] == ToolCallPart(calls[k].id, ToolCallName(calls[k]), ToolInput(calls[k]))
  {
    if calls == [] then []
    else ToolCallParts(calls[..|calls| - 1]) + [ToolCallPart(calls[|calls| - 1].id, ToolCallName(calls[|calls| - 1]), ToolInput(calls[|calls| - 1]))]
  }

  /** The parts of an assistant message: its text, its reasoning, then its tool calls. */
  function AssistantParts(msg: Message): (parts: seq<Part>)
    ensures var head := (if msg.content != "" then 1 else 0) + (if msg.reasoningContent != "" then 1 else 0);
      |parts| == head + |msg.toolCalls| && parts[head..] == ToolCallParts(msg.toolCalls)
    ensures msg.content != "" ==> parts[0] == TextPart(msg.content)
    ensures msg.reasoningContent != "" ==>
      parts[if msg.content != "" then 1 else 0] == ReasoningPart(msg.reasoningContent)
  {
    (if msg.content != "" then [TextPart(msg.content)] else [])
      + (if msg.reasoningContent != "" then [ReasoningPart(msg.reasoningContent)] else [])
      + ToolCallParts(msg.toolCalls)
  }

  /** One text part per system block, in order. */
  function SystemTextParts(blocks: seq<string>): (parts: seq<Part>)
    ensures |parts| == |blocks| && forall k :: 0 <= k < |blocks| ==> parts[k] == TextPart(blocks[k])
  {
    if blocks == [] then [] else SystemTextParts(blocks[..|blocks| - 1]) + [TextPart(blocks[|blocks| - 1])]
  }

  /** convertOneMessage. */
  function ConvertOne(msg: Message): (r: SdkMessage)
    ensures msg.role == "system" ==> r.role == SystemRole
    ensures msg.role == "assistant" ==> r.role == AssistantRole && r.parts == AssistantParts(msg)
    ensures msg.role == "tool" ==> r.role == ToolRole
    ensures msg.role !in {"system", "assistant", "tool"} ==> r == SdkMessage(UserRole, [TextPart(msg.content)])
  {
    if msg.role == "system" then
      if |msg.systemParts| > 0 then SdkMessage(SystemRole, SystemTextParts(msg.systemParts))
      else SdkMessage(SystemRole, [TextPart(msg.content)])
    else if msg.role == "user" then SdkMessage(UserRole, [TextPart(msg.content)])
    else if msg.role == "assistant" then SdkMessage(AssistantRole, AssistantParts(msg))
    else if msg.role == "tool" then SdkMessage(ToolRole, [ToolResultPart(msg.toolCallId, msg.content)])
    else SdkMessage(UserRole, [TextPart(msg.content)])
  }

  /** A system message carries its blocks as text parts when it has any, else its content. */
  lemma SystemMessageText(msg: Message)
    requires msg.role == "system"
    ensures |msg.systemParts| > 0 ==>
      |ConvertOne(msg).parts| == |msg.systemParts| &&
      forall k :: 0 <= k < |msg.systemParts| ==> ConvertOne(msg).parts[k] == TextPart(msg.systemParts[k])
    ensures |msg.systemParts| == 0 ==> ConvertOne(msg).parts == [TextPart(msg.content)]
  {
  }

  /** A tool message is one tool-result part carrying the call id and the content. */
  lemma ToolMessageResult(msg: Message)
    requires msg.role == "tool"
    ensures ConvertOne(msg).parts == [ToolResultPart(msg.toolCallId, msg.content)]
  {
  }

  /** AgentXToFantasyMessages: the conversion of every message, in order. */
  function ConvertAll(msgs: seq<Message>): (r: seq<SdkMessage>)
    ensures |r| == |msgs|
    ensures forall k :: 0 <= k < |msgs| ==> r[k] == ConvertOne(msgs[k])
  {
    if msgs == [] then [] else ConvertAll(msgs[..|msgs| - 1]) + [ConvertOne(msgs[|msgs| - 1])]
  }

  // ---- Step results back to session messages ----

  /** The output of a tool result as the SDK reports it. */
  datatype ToolOutput = OutputText(text: string) | OutputError(error: Option<string>) | OutputOther

  /** The content items of a finished step. */
  datatype Content =
    | TextContent(text: string)
    | ReasoningContent(text: string)
    | ToolCallContent(callId: string, toolName: string, input: string)
    | ToolResultContent(resultCallId: string, result: Option<ToolOutput>)
    | OtherContent

  /** What has been gathered from a step so far: the assistant message and the tool-result messages. */
  datatype StepAcc = StepAcc(assistant: Message, toolResults: seq<Message>)

  /** The session form of a tool call the model made. */
  function StoredCall(callId: string, toolName: string, input: string): ToolCall {
    ToolCall(callId, "function", toolName, Some(FunctionCall(toolName, input)), None)
  }

  /**
   * A tool call stored from a step gives back, when converted again, the
   * tool name and the input the step reported: the function arguments are
   * the input, ahead of any argument map.
   */
  lemma StoredCallKeepsInput(callId: string, toolName: string, input: string, argumentsJson: Option<string>)
    ensures ToolInput(StoredCall(callId, toolName, input)) == input
    ensures ToolInput(StoredCall(callId, toolName, input).(argumentsJson := argumentsJson)) == input
    ensures ToolCallName(StoredCall(callId, toolName, input)) == toolName
  {
  }

  /** The text stored for a tool result: its text output, else its error message, else "". */
  function ToolResultText(result: Option<ToolOutput>): string {
    match result
    case Some(OutputText(t)) => t
    case Some(OutputError(Some(e))) => e
    case _ => ""
  }

  /** The session message stored for a tool result. */
  function ToolResultMessage(callId: string, result: Option<ToolOutput>): Message {
    Message("tool", ToolResultText(result), "", [], [], callId)
  }

  /** One iteration of the loop over the step's content. */
  function Absorb(acc: StepAcc, c: Content): StepAcc {
    match c
    case TextContent(t) => acc.(assistant := acc.assistant.(content := t))
    case ReasoningContent(t) => acc.(assistant := acc.assistant.(reasoningContent := t))
    case ToolCallContent(id, name, input) =>
      acc.(assistant := acc.assistant.(toolCalls := acc.assistant.toolCalls + [StoredCall(id, name, input)]))
    case ToolResultContent(id, result) =>
      acc.(toolResults := acc.toolResults + [ToolResultMessage(id, result)])
    case OtherContent => acc
  }

  /** The loop over a step's content, from a given start. */
  function AbsorbAll(acc: StepAcc, cs: seq<Content>): StepAcc
    decreases |cs|
  {
    if cs == [] then acc else AbsorbAll(Absorb(acc, cs[0]), cs[1..])
  }

  /** The assistant message a step starts from. */
  function EmptyAssistant(): Message {
    PlainMessage("assistant", "")
  }

  /**
   * FantasyStepToAgentXMessages. A step's messages: the assistant message
   * comes first, and only when it has text or tool calls; the tool results
   * follow in step order.
   */
  function StepToMessages(cs: seq<Content>): (r: seq<Message>)
    ensures r ==
      (if LastText(cs, "") != "" || |CallsOf(cs)| > 0 then [StoredAssistant(EmptyAssistant(), cs)] else [])
      + ResultsOf(cs)
  {
    AbsorbAllShape(StepAcc(EmptyAssistant(), []), cs);
    var acc := AbsorbAll(StepAcc(EmptyAssistant(), []), cs);
    (if acc.assistant.content != "" || |acc.assistant.toolCalls| > 0 then [acc.assistant] else [])
      + acc.toolResults
  }

  /** The text of the last text item of a step, or `dflt` if it has none. */
  function LastText(cs: seq<Content>, dflt: string): string {
    if cs == [] then dflt
    else if cs[|cs| - 1].TextContent? then cs[|cs| - 1].text
    else LastText(cs[..|cs| - 1], dflt)
  }

  /** The text of the last reasoning item of a step, or `dflt` if it has none. */
  function LastReasoning(cs: seq<Content>, dflt: string): string {
    if cs == [] then dflt
    else if cs[|cs| - 1].ReasoningContent? then cs[|cs| - 1].text
    else LastReasoning(cs[..|cs| - 1], dflt)
  }

  /** The session form of an item that is a tool call. */
  function CallItem(c: Content): seq<ToolCall> {
    if c.ToolCallContent? then [StoredCall(c.callId, c.toolName, c.input)] else []
  }

  /** The tool calls of a step, in order, in session form. */
  function CallsOf(cs: seq<Content>): seq<ToolCall> {
    if cs == [] then [] else CallsOf(cs[..|cs| - 1]) + CallItem(cs[|cs| - 1])
  }

  /** The session message of an item that is a tool result. */
  function ResultItem(c: Content): seq<Message> {
    if c.ToolResultContent? then [ToolResultMessage(c.resultCallId, c.result)] else []
  }

  /** The tool-result messages of a step, in order. */
  function ResultsOf(cs: seq<Content>): seq<Message> {
    if cs == [] then [] else ResultsOf(cs[..|cs| - 1]) + ResultItem(cs[|cs| - 1])
  }

  /** The assistant message a step stores, stated item by item. */
  function StoredAssistant(acc: Message, cs: seq<Content>): Message {
    acc.(content := LastText(cs, acc.content),
         reasoningContent := LastReasoning(cs, acc.reasoningContent),
         toolCalls := acc.toolCalls + CallsOf(cs))
  }

  /** Folding the last item after the others. */
  lemma {:induction false} AbsorbAllSnoc(acc: StepAcc, cs: seq<Content>, c: Content)
    ensures AbsorbAll(acc, cs + [c]) == Absorb(AbsorbAll(acc, cs), c)
    decreases |cs|
  {
    if cs == [] {
      assert cs + [c] == [c];
    } else {
      assert (cs + [c])[1..] == cs[1..] + [c];
      AbsorbAllSnoc(Absorb(acc, cs[0]), cs[1..], c);
    }
  }

  /**
   * What the loop gathers: the last text and the last reasoning win, tool
   * calls and tool results keep their order, and nothing else changes.
   */
  lemma {:induction false} AbsorbAllShape(acc: StepAcc, cs: seq<Content>)
    ensures AbsorbAll(acc, cs) == StepAcc(StoredAssistant(acc.assistant, cs), acc.toolResults + ResultsOf(cs))
    decreases |cs|
  {
    if cs != [] {
      var init, c := cs[..|cs| - 1], cs[|cs| - 1];
      assert cs == init + [c];
      AbsorbAllSnoc(acc, init, c);
      AbsorbAllShape(acc, init);
    }
  }

  // ---- Round trip: an assistant message stored from a step converts back to the same parts ----

  /** The step item an SDK reports for a part it produced. */
  function ContentOf(p: Part): Content {
    match p
    case TextPart(t) => TextContent(t)
    case ReasoningPart(t) => ReasoningContent(t)
    case ToolCallPart(id, name, input) => ToolCallContent(id, name, input)
    case ToolResultPart(id, out) => ToolResultContent(id, Some(OutputText(out)))
  }

  /** The step items reported for a sequence of parts. */
  function AsContents(parts: seq<Part>): (cs: seq<Content>)
    ensures |cs| == |parts| && forall k :: 0 <= k < |parts| ==> cs[k] == ContentOf(parts[k])
  {
    if parts == [] then [] else AsContents(parts[..|parts| - 1]) + [ContentOf(parts[|parts| - 1])]
  }

  /** Tool calls stored back from their own parts. */
  function Restored(calls: seq<ToolCall>): (r: seq<ToolCall>)
    ensures |r| == |calls|
    ensures forall k :: 0 <= k < |calls| ==>
      r[k] == StoredCall(calls[k].id, ToolCallName(calls[k]), ToolInput(calls[k]))
  {
    if calls == [] then []
    else Restored(calls[..|calls| - 1]) + [StoredCall(calls[|calls| - 1].id, ToolCallName(calls[|calls| - 1]), ToolInput(calls[|calls| - 1]))]
  }

  /** Items that are all tool calls add no text, no reasoning and no result. */
  lemma {:induction false} CallItemsOnly(a: seq<Content>, b: seq<Content>, dt: string, dr: string)
    requires forall k :: 0 <= k < |b| ==> b[k].ToolCallContent?
    ensures LastText(a + b, dt) == LastText(a, dt)
    ensures LastReasoning(a + b, dr) == LastReasoning(a, dr)
    ensures ResultsOf(a + b) == ResultsOf(a)
    ensures CallsOf(a + b) == CallsOf(a) + CallsOf(b)
    decreases |b|
  {
    if b == [] {
      assert a + b == a;
    } else {
      var init := b[..|b| - 1];
      assert (a + b)[..|a + b| - 1] == a + init;
      CallItemsOnly(a, init, dt, dr);
      assert CallsOf(b) == CallsOf(init) + CallItem(b[|b| - 1]);
    }
  }

  /** The items of the tool-call parts give back the calls in stored form. */
  lemma {:induction false} ToolCallItems(calls: seq<ToolCall>)
    ensures CallsOf(AsContents(ToolCallParts(calls))) == Restored(calls)
    decreases |calls|
  {
    if calls != [] {
      var init := calls[..|calls| - 1];
      var cs := AsContents(ToolCallParts(calls));
      ToolCallItems(init);
      assert cs[..|cs| - 1] == AsContents(ToolCallParts(init));
    }
  }

  /** Re-storing a call keeps its name and input. */
  lemma RestoredConverts(calls: seq<ToolCall>)
    ensures ToolCallParts(Restored(calls)) == ToolCallParts(calls)
  {
  }

  /** The text and reasoning parts of an assistant message. */
  function HeadParts(msg: Message): seq<Part> {
    (if msg.content != "" then [TextPart(msg.content)] else [])
      + (if msg.reasoningContent != "" then [ReasoningPart(msg.reasoningContent)] else [])
  }

  lemma HeadItems(msg: Message)
    ensures LastText(AsContents(HeadParts(msg)), "") == msg.content
    ensures LastReasoning(AsContents(HeadParts(msg)), "") == msg.reasoningContent
    ensures CallsOf(AsContents(HeadParts(msg))) == [] && ResultsOf(AsContents(HeadParts(msg))) == []
  {
    var hc := AsContents(HeadParts(msg));
    if msg.content != "" && msg.reasoningContent != "" {
      assert hc == [TextContent(msg.content), ReasoningContent(msg.reasoningContent)];
      assert hc[..1] == [TextContent(msg.content)];
      assert CallsOf(hc[..1]) == [] && ResultsOf(hc[..1]) == [];
    } else if msg.content != "" {
      assert hc == [TextContent(msg.content)];
    } else if msg.reasoningContent != "" {
      assert hc == [ReasoningContent(msg.reasoningContent)];
    } else {
      assert hc == [];
    }
  }

  /** The step items of an assistant message's parts, item kind by item kind. */
  lemma StepItemsOfParts(msg: Message)
    ensures LastText(AsContents(AssistantParts(msg)), "") == msg.content
    ensures LastReasoning(AsContents(AssistantParts(msg)), "") == msg.reasoningContent
    ensures CallsOf(AsContents(AssistantParts(msg))) == Restored(msg.toolCalls)
    ensures ResultsOf(AsContents(AssistantParts(msg))) == []
  {
    var tail := ToolCallParts(msg.toolCalls);
    var hc := AsContents(HeadParts(msg));
    assert AssistantParts(msg) == HeadParts(msg) + tail;
    AsContentsAppend(HeadParts(msg), tail);
    HeadItems(msg);
    ToolCallItemKinds(msg.toolCalls);
    CallItemsOnly(hc, AsContents(tail), "", "");
    ToolCallItems(msg.toolCalls);
  }

  lemma AsContentsAppend(a: seq<Part>, b: seq<Part>)
    ensures AsContents(a + b) == AsContents(a) + AsContents(b)
  {
    var l, r := AsContents(a + b), AsContents(a) + AsContents(b);
    forall k | 0 <= k < |l| ensures l[k] == r[k] {
      if k < |a| {
        assert (a + b)[k] == a[k];
      } else {
        assert (a + b)[k] == b[k - |a|];
      }
    }
  }

  lemma ToolCallItemKinds(calls: seq<ToolCall>)
    ensures forall k :: 0 <= k < |calls| ==> AsContents(ToolCallParts(calls))[k].ToolCallContent?
  {
    var parts := ToolCallParts(calls);
    forall k | 0 <= k < |calls| ensures AsContents(parts)[k].ToolCallContent? {
      assert parts[k].ToolCallPart?;
    }
  }

  /** The step items of an assistant message's parts store its text, reasoning and calls. */
  lemma StoredFromParts(msg: Message)
    ensures StoredAssistant(EmptyAssistant(), AsContents(AssistantParts(msg))) ==
      Message("assistant", msg.content, msg.reasoningContent, [], Restored(msg.toolCalls), "")
    ensures ResultsOf(AsContents(AssistantParts(msg))) == []
  {
    StepItemsOfParts(msg);
    assert EmptyAssistant().toolCalls + Restored(msg.toolCalls) == Restored(msg.toolCalls);
  }

  /**
   * A session assistant message with text or tool calls, sent to the SDK and
   * reported back as a step, is stored as one assistant message whose
   * conversion gives the same parts again.
   */
  lemma AssistantRoundTrip(msg: Message)
    requires msg.role == "assistant"
    requires msg.content != "" || |msg.toolCalls| > 0
    ensures |StepToMessages(AsContents(ConvertOne(msg).parts))| == 1
    ensures ConvertOne(StepToMessages(AsContents(ConvertOne(msg).parts))[0]) == ConvertOne(msg)
  {
    var cs := AsContents(AssistantParts(msg));
    StoredFromParts(msg);
    var back := Message("assistant", msg.content, msg.reasoningContent, [], Restored(msg.toolCalls), "");
    assert StepToMessages(cs) == [back];
    RestoredConverts(msg.toolCalls);
    assert AssistantParts(back) == AssistantParts(msg);
  }
}

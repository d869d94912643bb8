/**
 * The decision logic of one agent turn run through the language-model SDK
 * (pkg/agent/fantasy_runner.go): splitting the message list into system
 * prompt, prompt and history; the callbacks that count steps, store step
 * messages and gather streamed text; the classification of context-window
 * errors and the retry after compression; and the choice of the final text.
 * The SDK's agent loop itself is not modelled: each attempt's outcome is an
 * input.
 */
module Runner {
  import opened Wrappers
  import opened Strings
  import opened Messages
  import Bus

  // ---- Prompt and history ----

  /** The system prompt, the prompt and the history handed to the SDK. */
  datatype PromptSplit = PromptSplit(systemPrompt: string, prompt: string, history: seq<Message>)

  /** Index of the first message that is not the leading system message. */
  function StartIndex(msgs: seq<Message>): (start: nat)
    ensures start <= |msgs| && start <= 1
    ensures start == 1 <==> (|msgs| > 0 && msgs[0].role == "system")
  {
    if |msgs| > 0 && msgs[0].role == "system" then 1 else 0
  }

  /** The index of the last "user" message at or after `start`, or -1. */
  function LastUserIndex(msgs: seq<Message>, start: nat): (i: int)
    ensures i == -1 || (start <= i < |msgs| && msgs[i].role == "user")
    ensures forall j :: i < j < |msgs| && j >= start ==> msgs[j].role != "user"
    decreases |msgs|
  {
    if |msgs| <= start then -1
    else if msgs[|msgs| - 1].role == "user" then |msgs| - 1
    else LastUserIndex(msgs[..|msgs| - 1], start)
  }

  /** What the prompt extraction yields for a message list. */
  function SplitPrompt(msgs: seq<Message>): PromptSplit {
    var start := StartIndex(msgs);
    var system := if start == 1 then msgs[0].content else "";
    var i := LastUserIndex(msgs, start);
    var prompt := if i >= 0 then msgs[i].content else "";
    if prompt == "" && |msgs| > start then
      PromptSplit(system, msgs[|msgs| - 1].content, msgs[start..|msgs| - 1])
    else if i >= 0 then PromptSplit(system, prompt, msgs[start..i])
    else PromptSplit(system, "", [])
  }

  /**
   * The extraction as the source writes it: a backward scan for the last user
   * message, then the fallback to the last message.
   */
  method ExtractPrompt(msgs: seq<Message>) returns (r: PromptSplit)
    ensures r == SplitPrompt(msgs)
  {
    var systemPrompt := "";
    var start := 0;
    if |msgs| > 0 && msgs[0].role == "system" {
      systemPrompt := msgs[0].content;
      start := 1;
    }
    var prompt := "";
    var history: seq<Message> := [];
    var i := |msgs| - 1;
    while i >= start
      invariant start - 1 <= i < |msgs|
      invariant LastUserIndex(msgs, start) == LastUserIndex(msgs[..i + 1], start)
      invariant prompt == "" && history == []
    {
      if msgs[i].role == "user" {
        prompt := msgs[i].content;
        history := msgs[start..i];
        break;
      }
      assert msgs[..i] == msgs[..i + 1][..i];
      i := i - 1;
    }
    if prompt == "" {
      if |msgs| > start {
        prompt := msgs[|msgs| - 1].content;
        history := msgs[start..|msgs| - 1];
      }
    }
    r := PromptSplit(systemPrompt, prompt, history);
  }

  /** A leading system message gives the system prompt and is in neither prompt nor history. */
  lemma SystemMessageExcluded(msgs: seq<Message>)
    requires |msgs| > 0 && msgs[0].role == "system"
    ensures SplitPrompt(msgs).systemPrompt == msgs[0].content
    ensures SplitPrompt(msgs).history <= msgs[1..]
  {
  }

  /**
   * With a non-empty last user message, the prompt is its content and the
   * history is exactly the messages between the system message and it.
   */
  lemma PromptIsLastUserMessage(msgs: seq<Message>, i: nat)
    requires StartIndex(msgs) <= i < |msgs| && msgs[i].role == "user" && msgs[i].content != ""
    requires forall j :: i < j < |msgs| ==> msgs[j].role != "user"
    ensures SplitPrompt(msgs).prompt == msgs[i].content
    ensures SplitPrompt(msgs).history == msgs[StartIndex(msgs)..i]
  {
    var start := StartIndex(msgs);
    var k := LastUserIndex(msgs, start);
    assert k == i;
  }

  /**
   * Without a usable user message, the prompt is the last message's content
   * and the history is everything after the system message before it.
   */
  lemma PromptFallsBackToLast(msgs: seq<Message>)
    requires |msgs| > StartIndex(msgs)
    requires var k := LastUserIndex(msgs, StartIndex(msgs)); k < 0 || msgs[k].content == ""
    ensures SplitPrompt(msgs).prompt == msgs[|msgs| - 1].content
    ensures SplitPrompt(msgs).history == msgs[StartIndex(msgs)..|msgs| - 1]
  {
  }

  /** The history never holds the prompt's own message or anything after it. */
  lemma HistoryPrecedesPrompt(msgs: seq<Message>)
    ensures |SplitPrompt(msgs).history| < |msgs| || msgs == []
    ensures SplitPrompt(msgs).history == msgs[StartIndex(msgs)..StartIndex(msgs) + |SplitPrompt(msgs).history|]
  {
  }

  // ---- Callbacks of one streamed attempt ----

  /** The state the streaming callbacks of one attempt update. */
  class AttemptState {
    var textBuf: string
    var stepCount: nat
    var session: seq<Message>
    var published: seq<Bus.StreamDelta>
    const channel: string
    const chatId: string

    /** A fresh attempt over a session that already holds `stored`. */
    constructor (channel: string, chatId: string, stored: seq<Message>)
      ensures this.channel == channel && this.chatId == chatId
      ensures textBuf == "" && stepCount == 0 && session == stored && published == []
    {
      this.channel := channel;
      this.chatId := chatId;
      textBuf := "";
      stepCount := 0;
      session := stored;
      published := [];
    }

    /** OnTextDelta: the text is gathered and published as a stream delta. */
    method OnTextDelta(text: string)
      modifies this
      ensures textBuf == old(textBuf) + text
      ensures published == old(published) + [Bus.StreamDelta(channel, chatId, text, false)]
      ensures stepCount == old(stepCount) && session == old(session)
    {
      textBuf := textBuf + text;
      published := published + [Bus.StreamDelta(channel, chatId, text, false)];
    }

    /** OnStepFinish: one more step, whose messages are stored in the session in order. */
    method OnStepFinish(step: seq<Content>)
      modifies this
      ensures stepCount == old(stepCount) + 1
      ensures session == old(session) + StepToMessages(step)
      ensures textBuf == old(textBuf) && published == old(published)
    {
      stepCount := stepCount + 1;
      session := StoreAll(session, StepToMessages(step));
    }

    /** OnTextEnd: a done marker is published. */
    method OnTextEnd()
      modifies this
      ensures published == old(published) + [Bus.StreamDelta(channel, chatId, "", true)]
      ensures textBuf == old(textBuf) && stepCount == old(stepCount) && session == old(session)
    {
      published := published + [Bus.StreamDelta(channel, chatId, "", true)];
    }
  }

  /** The loop of OnStepFinish that appends a step's messages to the session one by one. */
  method StoreAll(session: seq<Message>, messages: seq<Message>) returns (stored: seq<Message>)
    ensures stored == session + messages
  {
    stored := session;
    var k := 0;
    while k < |messages|
      invariant 0 <= k <= |messages|
      invariant stored == session + messages[..k]
    {
      stored := stored + [messages[k]];
      k := k + 1;
    }
    assert messages[..k] == messages;
  }

  /** The callbacks the SDK makes during one attempt. */
  datatype Callback = TextDelta(text: string) | StepFinish(step: seq<Content>) | TextEnd | ToolCallSeen | ToolResultSeen

  /** The number of finished steps among callbacks. */
  function StepsIn(events: seq<Callback>): nat {
    if events == [] then 0 else StepsIn(events[..|events| - 1]) + (if events[|events| - 1].StepFinish? then 1 else 0)
  }

  /** The session messages one callback stores. */
  function StoredByOne(e: Callback): seq<Message> {
    if e.StepFinish? then StepToMessages(e.step) else []
  }

  /** The session messages the finished steps store, in order. */
  function StoredBy(events: seq<Callback>): seq<Message> {
    if events == [] then [] else StoredBy(events[..|events| - 1]) + StoredByOne(events[|events| - 1])
  }

  /** The text one callback streams. */
  function TextOf(e: Callback): string {
    if e.TextDelta? then e.text else ""
  }

  /** The streamed text of the callbacks, in order. */
  function StreamedText(events: seq<Callback>): string {
    if events == [] then "" else StreamedText(events[..|events| - 1]) + TextOf(events[|events| - 1])
  }

  /** The stream deltas one callback publishes: its text, or the done marker at the end of the text. */
  function PublishedByOne(channel: string, chatId: string, e: Callback): seq<Bus.StreamDelta> {
    match e
    case TextDelta(t) => [Bus.StreamDelta(channel, chatId, t, false)]
    case TextEnd => [Bus.StreamDelta(channel, chatId, "", true)]
    case _ => []
  }

  /** The stream deltas the callbacks publish, in order. */
  function PublishedBy(channel: string, chatId: string, events: seq<Callback>): seq<Bus.StreamDelta> {
    if events == [] then []
    else PublishedBy(channel, chatId, events[..|events| - 1]) + PublishedByOne(channel, chatId, events[|events| - 1])
  }

  /** The text carried by a sequence of stream deltas, in order. */
  function DeltaText(ds: seq<Bus.StreamDelta>): string {
    if ds == [] then "" else DeltaText(ds[..|ds| - 1]) + ds[|ds| - 1].delta
  }

  lemma {:induction false} DeltaTextAppend(a: seq<Bus.StreamDelta>, b: seq<Bus.StreamDelta>)
    ensures DeltaText(a + b) == DeltaText(a) + DeltaText(b)
    decreases |b|
  {
    if b == [] {
      assert a + b == a;
    } else {
      var front := b[..|b| - 1];
      assert (a + b)[..|a + b| - 1] == a + front;
      DeltaTextAppend(a, front);
    }
  }

  /**
   * What the stream subscribers receive spells out exactly the streamed text:
   * the done markers carry no text.
   */
  lemma {:induction false} PublishedTextIsStreamed(channel: string, chatId: string, events: seq<Callback>)
    ensures DeltaText(PublishedBy(channel, chatId, events)) == StreamedText(events)
    decreases |events|
  {
    if events != [] {
      var front, last := events[..|events| - 1], events[|events| - 1];
      var sent, sentLast := PublishedBy(channel, chatId, front), PublishedByOne(channel, chatId, last);
      assert PublishedBy(channel, chatId, events) == sent + sentLast;
      assert StreamedText(events) == StreamedText(front) + TextOf(last);
      PublishedTextIsStreamed(channel, chatId, front);
      DeltaTextAppend(sent, sentLast);
      DeltaTextOne(channel, chatId, last);
    }
  }

  /** One callback publishes exactly its own text. */
  lemma DeltaTextOne(channel: string, chatId: string, e: Callback)
    ensures DeltaText(PublishedByOne(channel, chatId, e)) == TextOf(e)
  {
    var ds := PublishedByOne(channel, chatId, e);
    if ds != [] {
      assert ds[..0] == [];
    }
  }

  /** Delivers one callback to the attempt's state. */
  method Deliver(st: AttemptState, e: Callback)
    modifies st
    ensures st.stepCount == old(st.stepCount) + (if e.StepFinish? then 1 else 0)
    ensures st.session == old(st.session) + StoredByOne(e)
    ensures st.textBuf == old(st.textBuf) + TextOf(e)
    ensures st.published == old(st.published) + PublishedByOne(st.channel, st.chatId, e)
  {
    match e
    case TextDelta(t) => st.OnTextDelta(t);
    case StepFinish(step) => st.OnStepFinish(step);
    case TextEnd => st.OnTextEnd();
    case ToolCallSeen =>
    case ToolResultSeen =>
  }

  /**
   * The SDK's `Stream` makes the callbacks of an attempt in order. However it
   * interleaves them, the step count is the number of finished steps, the
   * session gains the steps' messages in step order, the text buffer is the
   * streamed text, and the bus gets one delta per text piece and one done
   * marker per end of text, in callback order.
   */
  method DeliverAll(st: AttemptState, events: seq<Callback>)
    modifies st
    ensures st.stepCount == old(st.stepCount) + StepsIn(events)
    ensures st.session == old(st.session) + StoredBy(events)
    ensures st.textBuf == old(st.textBuf) + StreamedText(events)
    ensures st.published == old(st.published) + PublishedBy(st.channel, st.chatId, events)
  {
    ghost var count0, session0, text0, published0 := st.stepCount, st.session, st.textBuf, st.published;
    var k := 0;
    while k < |events|
      invariant 0 <= k <= |events|
      invariant Delivered(st, events[..k], count0, session0, text0, published0)
    {
      DeliverNext(st, events, k, count0, session0, text0, published0);
      k := k + 1;
    }
    assert events[..k] == events;
  }

  /** The state after the callbacks `events` from the given start. */
  ghost predicate Delivered(st: AttemptState, events: seq<Callback>, count0: nat, session0: seq<Message>, text0: string,
                            published0: seq<Bus.StreamDelta>)
    reads st
  {
    st.stepCount == count0 + StepsIn(events) &&
    st.session == session0 + StoredBy(events) &&
    st.textBuf == text0 + StreamedText(events) &&
    st.published == published0 + PublishedBy(st.channel, st.chatId, events)
  }

  /** One turn of the delivery loop. */
  method DeliverNext(st: AttemptState, events: seq<Callback>, k: nat, ghost count0: nat, ghost session0: seq<Message>,
                     ghost text0: string, ghost published0: seq<Bus.StreamDelta>)
    requires k < |events|
    requires Delivered(st, events[..k], count0, session0, text0, published0)
    modifies st
    ensures Delivered(st, events[..k + 1], count0, session0, text0, published0)
  {
    ghost var stored, text := StoredBy(events[..k]), StreamedText(events[..k]);
    ghost var sent := PublishedBy(st.channel, st.chatId, events[..k]);
    Deliver(st, events[k]);
    DeliveredPrefix(st.channel, st.chatId, events, k);
    AppendAssoc(session0, stored, StoredByOne(events[k]));
    AppendAssoc(text0, text, TextOf(events[k]));
    AppendAssoc(published0, sent, PublishedByOne(st.channel, st.chatId, events[k]));
  }

  /** The callbacks up to and including the k-th. */
  lemma DeliveredPrefix(channel: string, chatId: string, events: seq<Callback>, k: nat)
    requires k < |events|
    ensures StepsIn(events[..k + 1]) == StepsIn(events[..k]) + (if events[k].StepFinish? then 1 else 0)
    ensures StoredBy(events[..k + 1]) == StoredBy(events[..k]) + StoredByOne(events[k])
    ensures StreamedText(events[..k + 1]) == StreamedText(events[..k]) + TextOf(events[k])
    ensures PublishedBy(channel, chatId, events[..k + 1]) == PublishedBy(channel, chatId, events[..k]) + PublishedByOne(channel, chatId, events[k])
  {
    assert events[..k + 1][..k] == events[..k];
  }

  // ---- Outcome of an attempt ----

  /**
   * The final text: the response's text when it is non-empty, else the
   * streamed text; no response gives the streamed text as well.
   */
  function FinalContent(responseText: Option<string>, streamed: string): (text: string)
    ensures text == streamed || (responseText.Some? && text == responseText.value)
    ensures responseText.Some? && responseText.value != "" ==> text == responseText.value
    ensures text == "" ==> streamed == "" && (responseText.None? || responseText.value == "")
  {
    var fromResponse := if responseText.Some? then responseText.value else "";
    if fromResponse == "" && |streamed| > 0 then streamed else fromResponse
  }

  /** An error message that names tokens, the context or a length. */
  predicate MentionsContext(message: string) {
    var lower := ToLower(message);
    Contains(lower, "token") || Contains(lower, "context") || Contains(lower, "length")
  }

  /** Whether an attempt's error triggers compression and a retry. */
  predicate IsContextError(message: string, contextTooLarge: bool) {
    MentionsContext(message) || contextTooLarge
  }

  /**
   * The context-error test ignores case, since it lowercases the message
   * first, and a provider's context-too-large verdict alone is enough.
   */
  lemma ContextErrorIgnoresCase(message: string, contextTooLarge: bool)
    ensures IsContextError(ToLower(message), contextTooLarge) == IsContextError(message, contextTooLarge)
    ensures IsContextError(message, true)
  {
    ToLowerIdempotent(message);
  }

  /** How one call of the SDK ends. */
  datatype Attempt =
    | Completed(responseText: Option<string>, events: seq<Callback>)
    | Failed(message: string, contextTooLarge: bool, events: seq<Callback>)

  /** The call failed with a context error, so the session is compressed and the call retried. */
  predicate Retried(a: Attempt) {
    a.Failed? && IsContextError(a.message, a.contextTooLarge)
  }

  /** What runFantasyIteration returns: the final text, the step count and the error, if any. */
  datatype Outcome = Outcome(text: string, steps: nat, err: Option<string>)

  /** The outcome of one attempt that is not retried. */
  function Settle(a: Attempt): (o: Outcome)
    ensures a.Completed? ==> o.err.None? && o.steps == StepsIn(a.events)
    ensures a.Failed? ==> o == Outcome("", StepsIn(a.events), Some("fantasy agent failed: " + a.message))
  {
    match a
    case Completed(resp, events) => Outcome(FinalContent(resp, StreamedText(events)), StepsIn(events), None)
    case Failed(msg, _, events) => Outcome("", StepsIn(events), Some("fantasy agent failed: " + msg))
  }

  /** The error returned when the agent has no language model. */
  const NoModelError := "fantasy model not configured"

  /**
   * The retry as the source writes it: every context error compresses the
   * session and recurses, with no bound. `attempt(k)` is how the k-th call
   * ends; `fuel` bounds the recursion so that it can be stated at all, and
   * None means the bound ran out before the turn ended.
   */
  function RunAsWritten(hasModel: bool, attempt: nat -> Attempt, k: nat, fuel: nat): (r: Option<Outcome>)
    decreases fuel
  {
    if !hasModel then Some(Outcome("", 0, Some(NoModelError)))
    else if fuel == 0 then None
    else
      var a := attempt(k);
      if Retried(a) then RunAsWritten(hasModel, attempt, k + 1, fuel - 1)
      else Some(Settle(a))
  }

  /** Every call ends in the same context error: the provider's reply to an input that stays too large. */
  function AlwaysTooLong(k: nat): Attempt {
    Failed("context length exceeded", false, [])
  }

  /**
   * As written, a provider that keeps reporting a context error keeps the turn
   * retrying: no number of attempts is enough for it to end.
   */
  lemma {:induction false} RunAsWrittenNeverEnds(fuel: nat, k: nat)
    ensures RunAsWritten(true, AlwaysTooLong, k, fuel).None?
    decreases fuel
  {
    if fuel > 0 {
      assert MentionsContext("context length exceeded") by {
        var lower := ToLower("context length exceeded");
        assert lower == "context length exceeded";
        assert OccursAt(lower, "context", 0);
      }
      RunAsWrittenNeverEnds(fuel - 1, k + 1);
    }
  }

  /**
   * The retry the source's comment describes: after a context error the turn
   * is retried once on the compressed messages; a second context error is
   * returned as an error.
   */
  function Run(hasModel: bool, attempt: nat -> Attempt): (o: Outcome)
    ensures !hasModel ==> o == Outcome("", 0, Some(NoModelError))
    ensures hasModel && Retried(attempt(0)) && Retried(attempt(1)) ==>
      o == Outcome("", StepsIn(attempt(1).events), Some("fantasy agent failed: " + attempt(1).message))
  {
    if !hasModel then Outcome("", 0, Some(NoModelError))
    else
      var first := attempt(0);
      if Retried(first) then Settle(attempt(1))
      else Settle(first)
  }

  /**
   * A turn makes at most two SDK calls: its outcome depends on the first two
   * attempts only.
   */
  lemma RunReadsTwoAttempts(hasModel: bool, attempt: nat -> Attempt, other: nat -> Attempt)
    requires attempt(0) == other(0) && attempt(1) == other(1)
    ensures Run(hasModel, attempt) == Run(hasModel, other)
  {
  }

  /** The second call is made only after a context error: otherwise the first attempt alone decides the turn. */
  lemma RunReadsOneAttemptUnlessRetried(hasModel: bool, attempt: nat -> Attempt, other: nat -> Attempt)
    requires attempt(0) == other(0) && !Retried(attempt(0))
    ensures Run(hasModel, attempt) == Run(hasModel, other)
  {
  }

  /**
   * Retry once: a context error on the retried call is returned as the
   * turn's error, with the steps of that call. The source instead makes a
   * third call.
   */
  lemma SecondContextErrorEndsTheTurn(attempt: nat -> Attempt)
    requires Retried(attempt(0)) && Retried(attempt(1))
    ensures Run(true, attempt) == Outcome("", StepsIn(attempt(1).events), Some("fantasy agent failed: " + attempt(1).message))
    ensures RunAsWritten(true, attempt, 0, 2).None?
  {
  }

  /**
   * Run agrees with the source wherever the source ends within two calls, and
   * ends on every input, including the one on which the source never ends.
   */
  lemma RunMatchesSourceWithinTwoCalls(hasModel: bool, attempt: nat -> Attempt, fuel: nat)
    requires fuel >= 2
    requires RunAsWritten(hasModel, attempt, 0, fuel).Some?
    requires !hasModel || !Retried(attempt(0)) || !Retried(attempt(1))
    ensures RunAsWritten(hasModel, attempt, 0, fuel) == Some(Run(hasModel, attempt))
  {
    if hasModel && Retried(attempt(0)) {
      assert RunAsWritten(hasModel, attempt, 0, fuel) == RunAsWritten(hasModel, attempt, 1, fuel - 1);
    }
  }

  /** A turn that ends in a non-context error reports the steps done so far and the wrapped error. */
  lemma OtherErrorsEndTheTurn(attempt: nat -> Attempt)
    requires attempt(0).Failed? && !IsContextError(attempt(0).message, attempt(0).contextTooLarge)
    ensures Run(true, attempt) == Outcome("", StepsIn(attempt(0).events), Some("fantasy agent failed: " + attempt(0).message))
  {
  }

  /** A completed turn has no error and the final text of its own call. */
  lemma CompletedTurn(attempt: nat -> Attempt)
    requires attempt(0).Completed?
    ensures Run(true, attempt).err.None?
    ensures Run(true, attempt).text == FinalContent(attempt(0).responseText, StreamedText(attempt(0).events))
  {
  }

  // ---- Messages for the user from tools ----

  /** forUserSink: a tool's message for the user is sent only when responses are enabled and it is non-empty. */
  function ForUserMessage(sendResponse: bool, channel: string, chatId: string, content: string): (m: Option<Bus.OutboundMessage>)
    ensures m.Some? <==> sendResponse && content != ""
    ensures m.Some? ==> m.value.content == content && m.value.channel == channel && m.value.chatId == chatId
  {
    if sendResponse && content != "" then Some(Bus.OutboundMessage(channel, chatId, content)) else None
  }
}

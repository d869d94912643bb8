# AgentX core, modelled in Dafny

This project models the core of AgentX, a Go agent gateway. Chat channels
(Telegram and others) publish user messages on a message bus. An agent loop
runs each turn through a language-model SDK. A fallback chain tries
alternative models when one fails. Tools are exposed to the model through an
adapter. A command-line onboarding wizard and a desktop application edit the
shared configuration file.

The model covers these parts:

- **Message bus** (`bus.dfy`, module `Bus`). A class with three bounded FIFO queues (capacities 100, 100 and 500), the stream-subscriber list, the handler map and the closed flag.
- **Fallback language model** (`fallback.dfy`, module `Fallback`). The candidate list, the shared candidate loop of `Generate` and `Stream` with its cooldown-tracker calls, and the error classification.
- **Agent turn** (`runner.dfy`, module `Runner`). This covers:
  - splitting the message list into system prompt, prompt and history;
  - the streaming callbacks;
  - the choice of the final text;
  - the retry after a context-window error.
- **Message conversion** (`messages.dfy`, module `Messages`). Session messages to SDK messages and back.
- **Tool adapter** (`adapter.dfy`, module `ToolAdapter`). This covers:
  - the tool context carried in a request context;
  - the tool description;
  - one tool run;
  - the adaptation of a whole registry.
- **Provider selection** (`protocol.dfy`, module `Protocol`). This covers:
  - `protocol/model` splitting;
  - default API bases;
  - the protocol dispatch;
  - the merge of legacy provider settings into the model list.
- **Telegram text handling** (`telegram.dfy`, module `Telegram`). This covers:
  - message splitting at 4096 bytes;
  - HTML escaping;
  - Markdown table flattening;
  - the per-chat stream buffers and their 3500-byte preview.
- **Agent registry** (`registry.dfy`, module `Registry`).
- **Antigravity model list** (`antigravity.dfy`, module `Antigravity`).
- **Onboarding tables and wizard** (`onboard.dfy`, module `Onboard`).
- **Desktop services** (`desktop.dfy`, module `Desktop`). The configuration editor, the workspace bootstrap files, the dashboard and the setup state.

Three modules are shared by the others:

- `Wrappers`: `Option` and `Result`.
- `Strings`: byte-string helpers with their lemmas, covering trimming, lower-casing, searching, `Split` and `Join`.
- `Configuration`: the parts of the configuration the core reads and writes.

**Conventions.**

- Strings are sequences of bytes, written as `seq<char>`.
- State that Go keeps in structs updated in place is held in classes with `modifies` clauses. This covers the bus, subscribers, cooldown tracker, fallback model, attempt state, stream buffers, registry, configuration, configuration editor and workspace.
- Pure Go code becomes functions and lemmas.
- Go loops become methods with loop invariants, proved against a specification function.
- A loop over a Go map, whose order is unspecified, becomes a loop that picks any remaining key.
- Blocking channel operations become preconditions, and so do panics.
- The results of I/O, HTTP, JSON decoding and SDK calls are parameters.

## Model

| member | source | states |
|---|---|---|
| Bus.MessageBus.constructor | pkg/bus/bus.go:24-31 | a new bus is open with empty queues, no subscribers and no handlers |
| Bus.MessageBus.PublishInbound | pkg/bus/bus.go:33-40 | on a closed bus nothing changes; otherwise the message is appended at the back of the inbound queue |
| Bus.MessageBus.ConsumeInbound | pkg/bus/bus.go:42-49 | returns the oldest inbound message and removes it, or reports false only when the context is cancelled, leaving the queue unchanged |
| Bus.MessageBus.PublishOutbound | pkg/bus/bus.go:51-58 | on a closed bus nothing changes; otherwise the message is appended to the outbound queue |
| Bus.MessageBus.SubscribeOutbound | pkg/bus/bus.go:60-67 | FIFO receive from the outbound queue, false only on cancellation |
| Bus.MessageBus.PublishStreamDelta | pkg/bus/bus.go:69-89 | never blocks: a full or closed stream queue is unchanged; each subscriber gets one copy per registration when its filter accepts and its buffer has room; no channel is closed |
| Bus.StreamSubscriber.TrySend | pkg/bus/bus.go:82-86 | the non-blocking send keeps the delta only when the filter accepts it and the buffer is below capacity |
| Bus.OfferNAppendsCopies | pkg/bus/bus.go:81-88 | repeated offers to one subscriber append copies of the delta up to its free room, or nothing when the filter rejects it |
| Bus.OfferNWithinCapacity | pkg/bus/bus.go:83-86 | a subscriber buffer never grows past its capacity |
| Bus.RegistrationsCount | pkg/bus/bus.go:81-88 | the number of copies a subscriber receives is its multiplicity in the subscriber list |
| Bus.MessageBus.AddStreamSubscriber | pkg/bus/bus.go:94-98 | the subscriber is appended at the end of the list |
| Bus.FirstIndex | pkg/bus/bus.go:104-110 | the index of the first identical entry, or -1 exactly when the subscriber is absent |
| Bus.MessageBus.RemoveStreamSubscriber | pkg/bus/bus.go:101-111 | removes the first identical entry and closes its channel, keeping the others in order; an unregistered subscriber changes nothing and stays open |
| Bus.MessageBus.SubscribeStream | pkg/bus/bus.go:113-120 | FIFO receive from the stream queue, false only on cancellation |
| Bus.MessageBus.RegisterHandler | pkg/bus/bus.go:122-126 | the handler map gains or overwrites the entry for the channel |
| Bus.MessageBus.GetHandler | pkg/bus/bus.go:128-133 | found exactly when a handler is registered, and then it is the last one registered |
| Bus.MessageBus.Close | pkg/bus/bus.go:135-145 | idempotent: the first call closes each of the three channels exactly once; later calls change nothing |
| Bus.CloseTwiceThenPublish | pkg/bus/bus.go:33-145 | after two closes a published inbound message and stream delta are both dropped |
| Bus.DisjointSubscribers | pkg/bus/bus.go:69-111 | of two subscribers with disjoint filters only the matching one receives the delta; removing it leaves the other registered and open |
| Fallback.RulesInOrder | pkg/providers/fantasy_fallback.go:182-195 | the classification switch, read rule by rule |
| Fallback.ClassifyErrorFollowsRules | pkg/providers/fantasy_fallback.go:182-195 | the switch equals the first matching rule of the table: rate limit, auth, timeout, overloaded, else unknown |
| Fallback.CooldownTracker.IsAvailable | pkg/providers/fantasy_fallback.go:77-81 | the verdict of the tracker on the calls made so far, without changing them |
| Fallback.CooldownTracker.MarkSuccess | pkg/providers/fantasy_fallback.go:85-87 | the tracker log gains one success for the provider |
| Fallback.CooldownTracker.MarkFailure | pkg/providers/fantasy_fallback.go:108-110 | the tracker log gains one failure with its reason |
| Fallback.BuildCandidates | pkg/providers/fantasy_fallback.go:44-59 | one candidate per non-nil fallback config that builds, in order, never more than the configs |
| Fallback.BuildCandidatesFromConfigs | pkg/providers/fantasy_fallback.go:44-59 | every built candidate comes from a config that builds and carries that model's provider and identifier |
| Fallback.BuildCandidatesCount | pkg/providers/fantasy_fallback.go:44-59 | the number of candidates equals the number of configs that build: none is lost and none invented |
| Fallback.CandidateList | pkg/providers/fantasy_fallback.go:34-59 | the loop builds the primary followed by BuildCandidates |
| Fallback.FallbackLanguageModel.constructor | pkg/providers/fantasy_fallback.go:29-66 | the primary is the first candidate, then the non-nil fallback configs that build, in order |
| Fallback.EventsAfter | pkg/providers/fantasy_fallback.go:107-110 | the tracker calls after invoking a candidate: exactly one, or none without a tracker |
| Fallback.StepAt | pkg/providers/fantasy_fallback.go:72-119 | one loop iteration: cancellation, cooldown skip, success, abort or recorded failure |
| Fallback.RunOrdered | pkg/providers/fantasy_fallback.go:72-119 | candidates are invoked at most once each, in increasing order |
| Fallback.RunEvents | pkg/providers/fantasy_fallback.go:85-110 | with a tracker there is exactly one tracker call per invoked candidate, except an aborting one, in invocation order |
| Fallback.RunInvokedAvailable | pkg/providers/fantasy_fallback.go:77-81 | a candidate is invoked only when the tracker reports its provider available at that moment |
| Fallback.RunFits | pkg/providers/fantasy_fallback.go:83-121 | the result agrees with the last invoked candidate's outcome |
| Fallback.RunResponse | pkg/providers/fantasy_fallback.go:83-96 | a response comes from the last invoked candidate; every earlier one failed |
| Fallback.RunAbort | pkg/providers/fantasy_fallback.go:99-105 | an abort happens at the last invoked candidate, on an invalid-request error; earlier failures did not abort |
| Fallback.RunExhausted | pkg/providers/fantasy_fallback.go:119-121 | exhaustion means every invoked candidate failed, and the error wraps the last message |
| Fallback.RunCancelled | pkg/providers/fantasy_fallback.go:73-75 | cancellation stops the loop before the candidate where it is noticed |
| Fallback.StreamNeverAborts | pkg/providers/fantasy_fallback.go:125-160 | Stream ends in a response, a cancellation or exhaustion, never an abort |
| Fallback.FallbackLanguageModel.Attempt | pkg/providers/fantasy_fallback.go:72-119 | one pass of the loop performs exactly StepAt, with its tracker call |
| Fallback.FallbackLanguageModel.TryCandidates | pkg/providers/fantasy_fallback.go:72-121 | the loop's result, tracker log and invocations are those of the specification Run |
| Fallback.FallbackLanguageModel.Generate | pkg/providers/fantasy_fallback.go:69-122 | Generate is the loop that aborts on invalid-request errors |
| Fallback.FallbackLanguageModel.Stream | pkg/providers/fantasy_fallback.go:125-160 | Stream is the loop that never aborts |
| Fallback.FallbackLanguageModel.GenerateObject | pkg/providers/fantasy_fallback.go:162-170 | object generation is the primary's answer, with no fallback and no tracker call |
| Fallback.FallbackLanguageModel.Identity | pkg/providers/fantasy_fallback.go:172-180 | Provider and Model are the primary's |
| Runner.StartIndex | pkg/agent/fantasy_runner.go:33-38 | history starts after a leading system message |
| Runner.LastUserIndex | pkg/agent/fantasy_runner.go:45-51 | the last "user" message at or after the start, or -1 when there is none |
| Runner.ExtractPrompt | pkg/agent/fantasy_runner.go:32-59 | the backward scan computes the specified prompt split |
| Runner.SystemMessageExcluded | pkg/agent/fantasy_runner.go:33-38 | a leading system message becomes the system prompt and is in neither the prompt nor the history |
| Runner.PromptIsLastUserMessage | pkg/agent/fantasy_runner.go:45-51 | with a non-empty last user message, it is the prompt and the history is exactly the messages before it |
| Runner.PromptFallsBackToLast | pkg/agent/fantasy_runner.go:53-59 | otherwise the last message's content is the prompt |
| Runner.HistoryPrecedesPrompt | pkg/agent/fantasy_runner.go:43-59 | the history never contains the prompt's message or anything after it |
| Runner.AttemptState.constructor | pkg/agent/fantasy_runner.go:94-97 | a fresh attempt has no steps and an empty text buffer |
| Runner.AttemptState.OnTextDelta | pkg/agent/fantasy_runner.go:104-116 | the text is appended to the buffer and published as one stream delta |
| Runner.AttemptState.OnStepFinish | pkg/agent/fantasy_runner.go:138-156 | the step count grows by one and the step's messages are stored in order |
| Runner.AttemptState.OnTextEnd | pkg/agent/fantasy_runner.go:158-166 | one done delta is published |
| Runner.Deliver | pkg/agent/fantasy_runner.go:100-167 | one callback updates the state as its handler does: the step count, the session, the text buffer, and the stream deltas published on the bus (one per text piece, one done marker per end of text) |
| Runner.DeliverAll | pkg/agent/fantasy_runner.go:100-167 | after all callbacks, the step count is the number of finished steps, the session gains the steps' messages in order, the buffer is the streamed text, and the bus has received PublishedBy of the callbacks, in order |
| Runner.PublishedTextIsStreamed | pkg/agent/fantasy_runner.go:104-116 | the texts of the published deltas, concatenated, are exactly the streamed text; the done markers carry none |
| Runner.FinalContent | pkg/agent/fantasy_runner.go:207-218 | the response text when non-empty, else the streamed text |
| Runner.Settle | pkg/agent/fantasy_runner.go:204-228 | an attempt that is not retried gives its final text and step count, or the wrapped error |
| Runner.ContextErrorIgnoresCase | pkg/agent/fantasy_runner.go:183-188 | the context-error test ignores letter case in the message, and a provider error flagged as context too large always counts |
| Runner.RunAsWrittenNeverEnds | pkg/agent/fantasy_runner.go:182-202 | as written, a provider that always reports a context error makes the turn retry without end |
| Runner.Run | pkg/agent/fantasy_runner.go:27-204 | the corrected retry: with no model the turn reports the configuration error; when the retried call also ends in a context error, that error is returned with the retried call's steps |
| Runner.RunReadsTwoAttempts | pkg/agent/fantasy_runner.go:169-204 | a turn makes at most two SDK calls: two attempt sequences that agree on their first two calls give the same outcome |
| Runner.RunReadsOneAttemptUnlessRetried | pkg/agent/fantasy_runner.go:182-204 | the second call is made only after a context error: otherwise the first call alone decides the outcome |
| Runner.SecondContextErrorEndsTheTurn | pkg/agent/fantasy_runner.go:182-204 | two context errors in a row end the corrected turn with the second error, where the source as written would still be retrying after two calls |
| Runner.RunMatchesSourceWithinTwoCalls | pkg/agent/fantasy_runner.go:169-205 | the corrected retry agrees with the source wherever the source ends within two calls |
| Runner.OtherErrorsEndTheTurn | pkg/agent/fantasy_runner.go:204 | a non-context error ends the turn at once with the steps so far and the wrapped error |
| Runner.CompletedTurn | pkg/agent/fantasy_runner.go:207-228 | a completed call gives no error and its final text |
| Runner.ForUserMessage | pkg/agent/fantasy_runner.go:64-72 | a tool's text is sent to the user exactly when responses are on and it is non-empty |
| Messages.ToolCallName | pkg/providers/fantasy_messages.go:86-94 | the call's own name, else its function's name, else "" |
| Messages.ToolCallParts | pkg/providers/fantasy_messages.go:49-62 | one tool-call part per tool call, in order, with its id, name and input |
| Messages.AssistantParts | pkg/providers/fantasy_messages.go:40-66 | the text part if non-empty, the reasoning part if non-empty, then the tool calls |
| Messages.SystemTextParts | pkg/providers/fantasy_messages.go:25-34 | one text part per system block, in order |
| Messages.ConvertOne | pkg/providers/fantasy_messages.go:21-83 | the role dispatch; unknown roles become user messages |
| Messages.SystemMessageText | pkg/providers/fantasy_messages.go:23-35 | a system message carries its blocks when it has any, else its content |
| Messages.ToolMessageResult | pkg/providers/fantasy_messages.go:68-77 | a tool message is one tool-result part with the call id and the content |
| Messages.ConvertAll | pkg/providers/fantasy_messages.go:10-19 | one converted message per input, in order |
| Messages.AbsorbAllShape | pkg/providers/fantasy_messages.go:107-148 | the last text and last reasoning win; tool calls and results keep their order |
| Messages.StepToMessages | pkg/providers/fantasy_messages.go:97-158 | the assistant message comes first, and only when it has text or tool calls; then the tool results in step order |
| Messages.ToolCallItems | pkg/providers/fantasy_messages.go:117-128 | tool-call items are stored back as calls with the same id, name and input |
| Messages.StoredCallKeepsInput | pkg/providers/fantasy_messages.go:50-56 | a stored call converts back to its tool name and input: the function's arguments are taken before any argument map |
| Messages.AssistantRoundTrip | pkg/providers/fantasy_messages.go:97-158 | an assistant message sent to the SDK and reported back as a step converts to the same parts again |
| ToolAdapter.WithToolContext | pkg/tools/fantasy_adapter.go:21-24 | the derived context carries the tool context |
| ToolAdapter.GetToolContext | pkg/tools/fantasy_adapter.go:26-30 | the most recently added tool context, or none |
| ToolAdapter.ToolContextRoundTrip | pkg/tools/fantasy_adapter.go:21-30 | a stored tool context is found again |
| ToolAdapter.OtherValuesKeepToolContext | pkg/tools/fantasy_adapter.go:26-30 | values added later under other keys do not hide it |
| ToolAdapter.Properties | pkg/tools/fantasy_adapter.go:46-55 | the schema's "properties" map, or the empty map |
| ToolAdapter.StringsOf | pkg/tools/fantasy_adapter.go:63-68 | the string elements of a list, in order |
| ToolAdapter.StringsOfExactly | pkg/tools/fantasy_adapter.go:63-68 | every string element is kept, and nothing else is |
| ToolAdapter.StringsOfStrings | pkg/tools/fantasy_adapter.go:61-68 | a list of strings is kept whole |
| ToolAdapter.CollectStrings | pkg/tools/fantasy_adapter.go:63-68 | the loop gives those strings, or nil when there are none |
| ToolAdapter.Info | pkg/tools/fantasy_adapter.go:45-79 | name, description, the properties, the required list and the parallel flag |
| ToolAdapter.RequiredAbsent | pkg/tools/fantasy_adapter.go:57-70 | no "required" entry gives nil |
| ToolAdapter.ResponseContent | pkg/tools/fantasy_adapter.go:119-122 | the text for the model, or the error's message when that text is empty |
| ToolAdapter.ResponseFor | pkg/tools/fantasy_adapter.go:118-128 | an error response exactly when the result is an error |
| ToolAdapter.FantasyToolAdapter.constructor | pkg/tools/fantasy_adapter.go:163-167 | the adapter holds its tool, sink and parallel flag with no calls yet |
| ToolAdapter.FantasyToolAdapter.SetProviderOptions | pkg/tools/fantasy_adapter.go:136-139 | replaces the provider options and nothing else |
| ToolAdapter.FantasyToolAdapter.Run | pkg/tools/fantasy_adapter.go:82-129 | bad JSON gives an error response with no call; otherwise the context is set and the callback installed when applicable, one call with the parsed (or empty) arguments, the user text sent when not silent and non-empty, and the response of the result |
| ToolAdapter.FantasyToolAdapter.CompleteAsync | pkg/tools/fantasy_adapter.go:103-107 | the async callback sends the user text under the same condition |
| ToolAdapter.SortedNamesDistinct | pkg/tools/fantasy_adapter.go:158 | the sorted name list holds no name twice |
| ToolAdapter.AdaptTools | pkg/tools/fantasy_adapter.go:154-177 | one new, distinct adapter per registered tool, in sorted order, each in its initial state (no options, context, callback or calls), parallel exactly for the parallel-safe names |
| Protocol.ExtractProtocol | pkg/providers/factory_provider.go:11-18 | the trimmed model is split at its first "/": the protocol has no "/" and protocol + "/" + id is the trimmed input; with no "/" the protocol is "openai" |
| Protocol.SplitAtSlash | pkg/providers/factory_provider.go:13-17 | the split of an already trimmed string |
| Protocol.ExtractProtocolInverse | pkg/providers/factory_provider.go:12-17 | any trimmed "p/m" with a slash-free p splits back into (p, m) |
| Protocol.ExtractProtocolExampleWithPrefix | pkg/providers/factory_provider.go:8-9 | "openai/gpt-4o" gives ("openai", "gpt-4o") |
| Protocol.ExtractProtocolExampleBare | pkg/providers/factory_provider.go:10 | "gpt-4o" gives ("openai", "gpt-4o") |
| Protocol.DefaultApiBase | pkg/providers/factory_provider.go:21-56 | the table's URL for a protocol in the table, else "" |
| Protocol.DefaultApiBasesCover | pkg/providers/factory_provider.go:21-56 | the table covers exactly openai, gemini and the OpenAI-compatible protocols |
| Protocol.DefaultApiBaseMissing | pkg/providers/factory_provider.go:53-54 | anthropic and google have no default base |
| Protocol.CreateProvider | pkg/providers/fantasy_bridge.go:46-118 | the dispatch to anthropic, openai, google or the 13 compatible protocols, else an unsupported-protocol error; OpenAI-style providers fall back to the default base, Anthropic and Google take one only when set |
| Protocol.FantasyModelFromConfig | pkg/providers/fantasy_bridge.go:19-43 | a nil config or empty model fails before any provider is built; otherwise the caller's key is trimmed in place, and the errors come in the source's order: an unsupported protocol, then a failing SDK provider constructor, then a failing LanguageModel; a model is built exactly when none of these happens |
| Protocol.BuiltKeyIsTrimmed | pkg/providers/fantasy_bridge.go:27-28 | a built model's API key has no surrounding whitespace |
| Protocol.AppendMissing | pkg/providers/fantasy_bridge.go:132-136 | the provider entries, in order, whose name is not among the original names |
| Protocol.MergeModelList | pkg/providers/fantasy_bridge.go:126-137 | the original list stays an unchanged prefix |
| Protocol.MergeCoversNames | pkg/providers/fantasy_bridge.go:126-137 | after the merge every original and every provider-derived name resolves |
| Protocol.MergeGainsNames | pkg/providers/fantasy_bridge.go:132-136 | every provider name resolves after the merge |
| Protocol.MergeInventsNoNames | pkg/providers/fantasy_bridge.go:126-137 | no other name appears |
| Protocol.FantasyModelFromFullConfig | pkg/providers/fantasy_bridge.go:122-149 | the merge loop, then "no providers configured" for an empty list, an error for an unknown default name, else the model of that entry |
| Telegram.CutPoint | pkg/channels/telegram.go:370-376 | the cut lies in (2048, 4096]: the last blank line past the middle, else the last newline past the middle, else 4096 |
| Telegram.NextCut | pkg/channels/telegram.go:378-382 | the trimmed chunk fits and the trimmed rest is strictly shorter |
| Telegram.SplitTelegramMessage | pkg/channels/telegram.go:356-386 | the loop produces exactly SplitMessage |
| Telegram.CutOnce | pkg/channels/telegram.go:370-382 | one loop iteration keeps the loop invariant |
| Telegram.ShortMessageIsOneChunk | pkg/channels/telegram.go:357-359 | text of at most 4096 bytes is one chunk, unchanged |
| Telegram.ChunksFit | pkg/channels/telegram.go:364-383 | every chunk is at most 4096 bytes and non-empty |
| Telegram.LongMessageChunks | pkg/channels/telegram.go:361-385 | for longer text, every chunk fits, is non-empty and trimmed |
| Telegram.ChunksKeepText | pkg/channels/telegram.go:364-383 | the loop drops only white space |
| Telegram.SplitKeepsText | pkg/channels/telegram.go:356-386 | the chunks hold every non-white-space byte of the message, in order |
| Telegram.ReplaceAll | pkg/channels/telegram.go:847-849 | replacing a byte whose replacement does not contain it removes every occurrence |
| Telegram.EscapeHtml | pkg/channels/telegram.go:846-851 | the escaped text has no "<" or ">" |
| Telegram.EscapeHtmlAppend | pkg/channels/telegram.go:846-851 | escaping distributes over concatenation |
| Telegram.EscapeHtmlOne | pkg/channels/telegram.go:846-851 | each byte escapes on its own: "&" first, so entities are not escaped twice |
| Telegram.EscapeHtmlIsEscapeEach | pkg/channels/telegram.go:846-851 | the three replacements in their order equal byte-wise escaping |
| Telegram.UnescapeEscapeEach | pkg/channels/telegram.go:846-851 | the decoder inverts the byte-wise escape |
| Telegram.UnescapeEscapedChar | pkg/channels/telegram.go:847-849 | the escape of any single byte, followed by any text, decodes back to that byte followed by the decoding of the text |
| Telegram.EscapeRoundTrip | pkg/channels/telegram.go:846-851 | decoding the escaped text gives the text back |
| Telegram.TrimAll | pkg/channels/telegram.go:751-753 | each piece trimmed, one for one |
| Telegram.ParseTableRow | pkg/channels/telegram.go:744-755 | the cells of a row line: the text between the outer pipes, split at pipes and trimmed; no cells for other lines |
| Telegram.TrimEach | pkg/channels/telegram.go:750-753 | the loop equals TrimAll |
| Telegram.CellsShape | pkg/channels/telegram.go:744-755 | a row has one cell more than its inner pipes, each trimmed and pipe-free |
| Telegram.MainIndex | pkg/channels/telegram.go:760-768 | the first header that is neither empty nor an index header, or -1 |
| Telegram.Details | pkg/channels/telegram.go:777-788 | at most one detail per column |
| Telegram.DetailsExact | pkg/channels/telegram.go:778-788 | the details are exactly the "h: v" pairs of non-title columns with a value and a non-index header, in order |
| Telegram.FormatRowShape | pkg/channels/telegram.go:770-797 | the title cell plus an indented detail line, or the cells joined by " \| " |
| Telegram.FormatTableRow | pkg/channels/telegram.go:758-798 | the two loops compute FormatRow |
| Telegram.ConvertMarkdownTables | pkg/channels/telegram.go:682-741 | the nested loops compute ConvertTables |
| Telegram.ConvertLines | pkg/channels/telegram.go:687-738 | the outer loop over the lines computes ConvertFrom from the first line |
| Telegram.ConvertAt | pkg/channels/telegram.go:688-737 | one round of the outer loop moves forward by at least one line and keeps the loop invariant |
| Telegram.SkipHeader | pkg/channels/telegram.go:704-709 | the data rows start past the header row and a separator line right after it, if there is one |
| Telegram.ConvertTable | pkg/channels/telegram.go:711-737 | the inner loop and the closing empty line compute RowsFrom, ending at the first line after the table |
| Telegram.KeepLine | pkg/channels/telegram.go:691-702 | a line that is not a row, or a row without cells, is copied |
| Telegram.EmitRow | pkg/channels/telegram.go:724-733 | each data row becomes an entry, after an empty line unless it is the first |
| Telegram.EndTable | pkg/channels/telegram.go:736-737 | a table ends with an empty line |
| Telegram.TableLinePatterns | pkg/channels/telegram.go:37-38 | a separator line is also a row line; a line is a row exactly when it has cells; "\|\|" is no row, "\|a\|" is one and "\|-\|" is a separator |
| Telegram.RowsFromRow | pkg/channels/telegram.go:711-732 | a data row becomes FormatRow of the headers and its trimmed cells, after an empty line unless it is the first, and the next line follows with one more row counted |
| Telegram.RowsFromEnd | pkg/channels/telegram.go:713-721 | the first line that is no row, or has no cells, or the end of the text, ends the table with one empty line, and conversion resumes at that line |
| Telegram.TableStartsAtHeader | pkg/channels/telegram.go:696-731 | after a header row and its optional separator line the first data row is the first entry, formatted under the header row's cells |
| Telegram.ConvertWithoutTables | pkg/channels/telegram.go:687-695 | lines none of which is a table row pass unchanged |
| Telegram.TextWithoutTablesUnchanged | pkg/channels/telegram.go:682-741 | text without a table row is returned exactly |
| Telegram.Preview | pkg/channels/telegram.go:206-209 | content up to 3500 bytes unchanged, else its first 3500 bytes and "\n\n..." |
| Telegram.StreamBuffers.constructor | pkg/channels/telegram.go:72-112 | a channel starts with no stream buffers |
| Telegram.StreamBuffers.HandleStreamDelta | pkg/channels/telegram.go:253-266 | a done delta deletes the chat's buffer; any other appends its text and marks the buffer dirty |
| Telegram.StreamBuffers.Flush | pkg/channels/telegram.go:182-209 | a dirty buffer becomes clean; its preview is returned when it has text and the chat id parses |
| Telegram.StreamThenFlush | pkg/channels/telegram.go:253-266 | two deltas then a flush preview their concatenation; a second flush returns nothing |
| Registry.RegisterAllLastWins | pkg/agent/registry.go:82-86 | one agent per distinct normalised id, and it is the last configured agent with that id |
| Registry.NoConfigsOnlyMain | pkg/agent/registry.go:73-80 | with no agents configured, only the implicit default "main" agent exists, with the fallbacks its instance resolved from the defaults |
| Registry.ImplicitMainUsesDefaultFallbacks | pkg/agent/registry.go:73-79 | the implicit main agent is built like any other: with default fallbacks, its model is wrapped with one fallback config per default fallback name |
| Registry.FallbackConfigs | pkg/agent/registry.go:29-39 | each fallback name gives its model-list entry, or a bare config named after it |
| Registry.ResolveFallbacks | pkg/agent/registry.go:28-39 | the loop computes FallbackConfigs |
| Registry.ModelFor | pkg/agent/registry.go:14-45 | a failed build leaves the agent's model unchanged; a built model is wrapped with fallbacks exactly when the agent has some, one fallback config per fallback name, carrying that name |
| Registry.AgentRegistry.constructor | pkg/agent/registry.go:63-101 | the registry holds Registered(configs), each with ModelFor applied; with no configs the implicit main agent carries the default fallbacks |
| Registry.AgentRegistry.InitFantasyModels | pkg/agent/registry.go:13-53 | every agent gets ModelFor, whatever the visiting order; the keys do not change |
| Registry.AgentRegistry.GetAgent | pkg/agent/registry.go:104-110 | lookup under the normalised id |
| Registry.AgentRegistry.ListAgentIds | pkg/agent/registry.go:118-126 | every registered id exactly once |
| Registry.AgentRegistry.CanSpawnSubagent | pkg/agent/registry.go:129-147 | true exactly when the parent exists and has an allow-list containing "*" or the target's normalised id |
| Registry.AgentRegistry.GetDefaultAgent | pkg/agent/registry.go:150-160 | "main" when registered, else some agent, else none |
| Registry.WildcardAdmitsAll | pkg/agent/registry.go:139-141 | a wildcard admits every target |
| Registry.GetAgentByNormalisedId | pkg/agent/registry.go:104-110 | ids that normalise alike find the same agent |
| Antigravity.ProjectIdFromReply | pkg/providers/antigravity_auth.go:52-67 | success exactly on HTTP 200 with a decoded non-empty project id; any other status is an error carrying the whole body; an undecodable body and an empty id are their own errors |
| Antigravity.CollectModels | pkg/providers/antigravity_auth.go:115-122 | one entry per decoded model, distinct ids, each with its display name and exhausted flag |
| Antigravity.EnsureFlashModels | pkg/providers/antigravity_auth.go:124-146 | the scan and appends compute WithFlashModels |
| Antigravity.FlashModelsPresent | pkg/providers/antigravity_auth.go:124-146 | both Flash models are listed afterwards, the original list is an unchanged prefix, and only missing ones are added |
| Antigravity.FlashModelsDistinct | pkg/providers/antigravity_auth.go:135-146 | completion keeps ids distinct |
| Antigravity.FetchAntigravityModels | pkg/providers/antigravity_auth.go:92-148 | a non-200 reply is an error with the body cut to 200 bytes; an undecodable body is an error; otherwise every decoded model, then exactly the missing Flash models, preview first (WithFlashModels); ids distinct |
| Antigravity.TruncateBody | pkg/providers/antigravity_auth.go:151-156 | short text unchanged, else its first maxLen bytes followed by "..." |
| Onboard.ProviderIdsInOrder | cmd/agentx/internal/onboard/providers.go:16-98 | the table lists the nine provider ids in order |
| Onboard.ProviderIdsDistinct | cmd/agentx/internal/onboard/providers.go:16-98 | no two providers share an id |
| Onboard.ProvidersComplete | cmd/agentx/internal/onboard/providers.go:16-98 | only ollama needs no key, and its default key is "ollama"; the others have an empty default key |
| Onboard.FindProvider | cmd/agentx/internal/onboard/providers.go:100-107 | the entry with the id, or none exactly when no entry has it |
| Onboard.BuildModelConfig | cmd/agentx/internal/onboard/providers.go:109-120 | the provider's model, base and name, with the given key or else the default key |
| Onboard.EmptyKeyDefaults | cmd/agentx/internal/onboard/providers.go:110-113 | an empty key becomes "ollama" for ollama and stays empty for the others |
| Onboard.ChannelsTable | cmd/agentx/internal/onboard/channels.go:16-50 | four channels (telegram, discord, slack, whatsapp) with distinct ids; only slack asks for two tokens |
| Onboard.FindChannel | cmd/agentx/internal/onboard/channels.go:52-59 | the entry with the id, or none exactly when no entry has it |
| Onboard.ApplyChannelsEffect | cmd/agentx/internal/onboard/wizard.go:214-240 | the named channel is enabled, its tokens are set when given, and every other channel is unchanged; an unknown id changes nothing |
| Onboard.ApplyChannelConfig | cmd/agentx/internal/onboard/wizard.go:214-240 | the configuration is updated in place to ApplyChannels |
| Onboard.SaveWizardConfig | cmd/agentx/internal/onboard/wizard.go:194-212 | a fresh configuration equal to WizardConfig |
| Onboard.WizardConfigShape | cmd/agentx/internal/onboard/wizard.go:194-212 | the model list is exactly the provider's entry, the default names it, and the channel is applied unless "" or "skip" |
| Onboard.RunNonInteractive | cmd/agentx/internal/onboard/wizard.go:161-172 | an unknown provider, or a key-requiring provider with no key, is rejected before anything is saved; otherwise the configuration is WizardConfig with no channel |
| Desktop.ConfigService.constructor | cmd/agentx-desktop/configui.go:26-28 | the service starts over the stored configuration |
| Desktop.ConfigService.AddModel | cmd/agentx-desktop/configui.go:55-62 | a load failure changes nothing; otherwise the model is appended at the end |
| Desktop.ConfigService.UpdateModel | cmd/agentx-desktop/configui.go:64-74 | an index outside [0, len) errors without saving; otherwise only that entry is replaced |
| Desktop.RemoveAt | cmd/agentx-desktop/configui.go:84 | the length drops by one, the entries before stay, and those after shift down by one |
| Desktop.ConfigService.RemoveModel | cmd/agentx-desktop/configui.go:76-86 | an out-of-range index errors without saving; otherwise exactly that entry is removed |
| Desktop.ChannelNamed | cmd/agentx-desktop/configui.go:93-118 | the twelve channel names select their channel; any other name selects none |
| Desktop.ChannelNamesRoundTrip | cmd/agentx-desktop/configui.go:93-118 | every channel is selected by its own name, so the names are distinct |
| Desktop.ConfigService.SetChannelEnabled | cmd/agentx-desktop/configui.go:88-121 | exactly one named channel's flag changes; an unknown name errors without saving |
| Desktop.SameProvidersAsWizard | cmd/agentx-desktop/configui.go:141-153 | nine providers with the onboarding wizard's ids, models, bases, key links and key requirements, in the same order; so the ids are distinct and only ollama needs no key |
| Desktop.QuickSetupModel | cmd/agentx-desktop/configui.go:173-183 | the provider's model entry; an empty key for a keyless provider becomes "ollama" |
| Desktop.QuickSetupKeyMatchesWizard | cmd/agentx-desktop/configui.go:173-176 | quick setup builds the same entry as the wizard's buildModelConfig |
| Desktop.FirstNamed | cmd/agentx-desktop/configui.go:186-188 | the index of the first entry with the name, or -1 when none has it |
| Desktop.UpsertShape | cmd/agentx-desktop/configui.go:186-196 | the first entry with the same name is replaced and all others kept, else the entry is appended; either way the name then resolves to it |
| Desktop.FirstProvider | cmd/agentx-desktop/configui.go:156-163 | the index of the first provider with the id, or -1 exactly when no provider has it |
| Desktop.FindProvider | cmd/agentx-desktop/configui.go:156-166 | the search loop finds exactly FirstProvider: the first provider with the id, or -1 |
| Desktop.UpsertModel | cmd/agentx-desktop/configui.go:186-195 | the update-or-append loop computes Upsert: the first entry with the model's name is replaced, else the model is appended |
| Desktop.ConfigService.QuickSetupProvider | cmd/agentx-desktop/configui.go:155-197 | an unknown provider is an error and nothing changes; a load failure is an error and nothing changes; otherwise it succeeds and the saved configuration is QuickSetupConfig for the first provider with the id |
| Desktop.QuickSetupDefaultResolves | cmd/agentx-desktop/configui.go:186-196 | after quick setup the default model name resolves to the provider's new entry |
| Desktop.DefaultTemplates | cmd/agentx-desktop/agentsetup.go:104-247 | the defaults have exactly the four bootstrap names as keys |
| Desktop.AgentSetupService.constructor | cmd/agentx-desktop/agentsetup.go:35-37 | the service starts over the workspace's files |
| Desktop.AgentSetupService.GetBootstrapFiles | cmd/agentx-desktop/agentsetup.go:56-73 | four entries in the order AGENTS, SOUL, USER, IDENTITY; present exactly when the file exists, with its text, else "" |
| Desktop.AgentSetupService.SaveBootstrapFile | cmd/agentx-desktop/agentsetup.go:76-95 | a name outside the four errors and writes nothing; otherwise the file holds exactly the text |
| Desktop.AgentSetupService.CreateDefaultBootstrapFiles | cmd/agentx-desktop/agentsetup.go:249-256 | only missing files are written, with their template; existing files are unchanged |
| Desktop.CreateDefaultsThenList | cmd/agentx-desktop/agentsetup.go:98-258 | after creating the defaults all four bootstrap files exist |
| Desktop.GetSkillContent | cmd/agentx-desktop/agentsetup.go:291-298 | the skill's text when installed, an error exactly when it is not |
| Desktop.ChannelInfos | cmd/agentx-desktop/dashboard.go:192-207 | twelve entries in fixed order, each flag mirroring the configuration |
| Desktop.DashboardListsEveryChannelOnce | cmd/agentx-desktop/dashboard.go:192-207 | every channel appears exactly once on the dashboard |
| Desktop.ModelInfos | cmd/agentx-desktop/dashboard.go:209-219 | one entry per model, in order, with HasKey exactly when the key is non-empty |
| Desktop.GetStatus | cmd/agentx-desktop/dashboard.go:50-85 | a load failure gives the zero status; otherwise every channel's info and one model info per entry with its name, model and HasKey exactly when its key is non-empty; Running exactly when the health reply decodes |
| Desktop.ShortLogWhole | cmd/agentx-desktop/dashboard.go:99-103 | a log with no more lines than requested is returned whole |
| Desktop.LogTailIsSuffix | cmd/agentx-desktop/dashboard.go:99-103 | the tail is a suffix of the log |
| Desktop.LogTailKeepsLastLines | cmd/agentx-desktop/dashboard.go:99-103 | asking for no lines gives ""; otherwise the tail holds every line break of the log when the log has fewer lines than asked, else `lines - 1` line breaks, so with LogTailIsSuffix it is the last `lines` lines |
| Desktop.JoinSplitSuffix | cmd/agentx-desktop/dashboard.go:99-103 | the lines from the k-th on, joined, are the end of the text |
| Desktop.GetSetupState | cmd/agentx-desktop/app.go:64-91 | BinaryInstalled mirrors detection; HasAPIKey implies ConfigExists and holds exactly when the loaded configuration has a key that is non-empty and not "ollama" |
| Desktop.ConfigPath | cmd/agentx-desktop/app.go:93-99 | "" when the home directory is unknown, else home + "/.agentx/config.json" |

## Left out

- The language-model SDK is not modelled. Each call's outcome and each callback sequence is an input.
- The SDK's provider constructors and `LanguageModel` are not modelled. Whether each succeeds is an input (`Protocol.Sdk`), and `CreateProvider` stops at the provider kind and its options.
- The forced compression of the session between the two calls of a turn, and the rebuilding of the messages from it, are not modelled. They are folded into the inputs `attempt(0)` and `attempt(1)` of `Runner.Run`.
- `CooldownTracker` internals are not modelled. The tracker is an availability predicate over the log of calls it has received.
- `routing.NormalizeAgentID` is a parameter, because its code is not part of this model.
- Route resolution (`ResolveRoute`) is not modelled.
- The configuration package is not part of this model. `LoadConfig` succeeds or fails as an input; `SaveConfig` and `MkdirAll` always succeed.
- `GetModelConfig` is modelled as a first-match lookup on the model name.
- `HasProvidersConfig` and `ConvertProvidersToModelList` are inputs.
- JSON encoding and decoding are not modelled: decoded values are inputs, and `json.Marshal` of tool arguments is a given string.
- HTTP requests are not modelled: status and body are inputs. File reads, writes and `os.Stat` are map lookups and updates.
- Concurrency is not modelled: goroutines, mutexes, `sync.Map` and the 500 ms flush ticker. A blocking send on a full inbound or outbound queue is a precondition.
- Sending and editing Telegram messages is not modelled, and neither is the placeholder and stream-message bookkeeping of the flush.
- The cancellation and removal of a chat's thinking animation on its first stream delta is not modelled.
- `markdownToTelegramHTML`, `extractCodeBlocks` and `extractInlineCodes` are not modelled, because they depend on Go's regular-expression engine. The table patterns `reTableRow` and `reTableSep` are modelled directly.
- `strings.TrimSpace` and `strings.ToLower` are modelled on ASCII bytes only: no Unicode white space and no Unicode case folding.
- `filepath.Join` and `filepath.Clean` are modelled as joining with "/". Paths are not normalised.
- `NewAgentInstance`, which resolves an agent's fallbacks against `agents.defaults`, is not part of this model. For the implicit main agent the resolved list is the input `defaultFallbacks`.
- `sortedToolNames` is a parameter constrained to list the registry's names in ascending order.
- Logging is not modelled.
- Runner.Run: a missing model reports "fantasy model not configured" without the agent id.
- Fallback.BuildCandidates, Fallback.CandidateList and the FallbackLanguageModel constructor take non-nil fallback configs. For a nil one the source's warning reads `cfg.Model` after the failed build, and Go panics; that panic is not modelled.
- `GetLogs` is modelled only in its tail slicing. A negative line count, which panics in Go, is excluded by the `nat` type.
- Desktop service methods beyond those modelled are left out: `GetConfig`, `SaveConfig`, `GetModelList`, `Get`/`UpdateAgentDefaults`, skills listing and installation, gateway start and stop, and the installer.
- The interactive wizard prompts and the command-line wiring are not modelled.
- Workspace template creation after the wizard saves its configuration is not modelled.
- Floating-point values (temperature, quota fractions) are not modelled.
- The Antigravity quota's reset time and remaining fraction are not modelled.
- Runner.RunAsWrittenNeverEnds states the source's unbounded retry through a recursion bounded by `fuel`, since Dafny functions must terminate.

## Findings

| source | as written | input that shows it | evidently intended | confidence | as-written member | corrected member |
|---|---|---|---|---|---|---|
| pkg/agent/fantasy_runner.go:182-202 | every context-window error compresses the session and calls `runFantasyIteration` again, with no bound | a provider that answers every call with "context length exceeded", for example because compression cannot shrink the input enough | "Retry once after compression": one retry, and a second context error is returned as an error | not executed | Runner.RunAsWrittenNeverEnds | Runner.Run |

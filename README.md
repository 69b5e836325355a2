# A verified model of the Nexia chat relay

Nexia is a self-hosted web chat for an agentic coding assistant SDK. The server relays one
agent session per conversation to the browser over a WebSocket. It persists conversations
and messages in SQLite. The browser folds the streamed events into a message list.

This project models the parts of that system with real logic:

- The query relay (`src/sdk/manager.ts`).
  - The registry of running queries, at most one per conversation.
  - The table of tool-permission checks that wait for the user.
  - The event translator, which turns the SDK's stream into client events.
  - The start, interrupt, archive and summarise operations, with their writes to the store.
- The client reducer (`src/frontend/hooks/useChat.ts`). It folds server events into
  per-conversation message lists.
- The WebSocket command dispatcher (`src/ws/handler.ts`).
- The tool-input summariser (`src/frontend/utils/summarize-tool-input.ts`).
- The path helpers of the directory picker and the chat view, and the chat view's submit
  guard.

## How each part is modelled

Stateful objects are Dafny classes:

- `Manager.Relay` holds the module-level maps of `manager.ts`.
- `Translator.QueryRun` holds the per-query locals of `startQuery`.
- `UseChat.ChatHook` holds the hook's React state and refs.

Each method states its whole new state, usually by equating it to a pure function of the old
state. Lemmas then prove what the source promises about those functions.

A whole query is also a value. `Manager.EventAfter` is one step of the stream, and
`Manager.StreamAfter` folds it over the events. `Manager.QueryOutcome` adds the user message
before the stream and the `catch` and `finally` after it. The relay's methods are proved to
compute these functions. The `Stream…` and `Query…` lemmas state what they do to the title,
the session id, the stored rows, the sent messages and the parked checks.

The loops of the source are methods with loop invariants:

- the permission sweep of `finally`;
- the summary stream;
- the SDK event stream;
- the backward search of `tool_use_result`;
- the breadcrumb loop.

Each is proved equal to a specification function.

The external collaborators are represented as follows:

- The SQLite store is the value `Store.Db`. Each prepared statement the relay uses is one
  function.
- The messages handed to `send`, and the calls of a permission promise's `resolve`, are
  ghost logs on the relay.
- `JSON.parse` is a parameter.
- The SDK stream is a sequence of events plus the way it ends.
- The summary query is an oracle applied to the transcript.

JavaScript's own behaviour is written out where the code relies on it:

- truthiness and `||` fallbacks;
- `Map` insertion order (`OrderedMap`);
- `split("/").filter(Boolean)`;
- the `^/home/[^/]+` match;
- the fact that an empty array is truthy.

## Model

| member | source | states |
|---|---|---|
| OrderedMap.Get | src/sdk/manager.ts:20-27 | `Map.get` finds an entry exactly when the key is present, and the entry found carries that key |
| OrderedMap.Set | src/sdk/manager.ts:128 | `Map.set` keeps keys unique |
| OrderedMap.SetLookup | src/sdk/manager.ts:200-212 | after `set`, the key maps to the new value and every other key is unchanged; a new key goes last in iteration order and an existing key keeps its place |
| OrderedMap.Delete | src/sdk/manager.ts:28 | `Map.delete` keeps keys unique |
| OrderedMap.DeleteLookup | src/sdk/manager.ts:28 | after `delete`, the key is gone, every other key is unchanged and the size drops by one exactly when the key was present |
| OrderedMap.ReplaceAtFacts | src/sdk/manager.ts:200-212 | `set` on an existing key keeps the keys unique and every key, that one included, at its position |
| OrderedMap.AppendFacts | src/sdk/manager.ts:200-212 | `set` on a new key keeps the keys unique, puts the new key last and every other key at its position |
| OrderedMap.RemoveAtFacts | src/sdk/manager.ts:28 | deleting a present key removes exactly its entry: the other keys stay present with their entries, stay unique and keep their relative order |
| OrderedMap.RemoveAtOrder | src/sdk/manager.ts:401-406 | deleting one entry keeps the iteration order of the rest |
| OrderedMap.RemoveAtLookup | src/sdk/manager.ts:401-406 | deleting one entry changes no other key's presence or entry |
| OrderedMap.LastKey | src/sdk/manager.ts:332-333 | the last key in insertion order, and none exactly for an empty map |
| OrderedMap.DeleteAll | src/sdk/manager.ts:317-329 | deleting a list of keys keeps keys unique |
| OrderedMap.DeleteAllLookup | src/sdk/manager.ts:317-329 | after deleting a list of keys, each listed key is absent and every other key is unchanged |
| Text.NatToString | src/sdk/manager.ts:197 | the decimal text of a number: non-empty, all digits, no leading zero |
| Text.ParseNatToString | src/sdk/manager.ts:462 | the decimal text of a number reads back as that number |
| Text.NatToStringInjective | src/sdk/manager.ts:197 | different numbers have different decimal texts |
| Text.Split | src/frontend/components/DirectoryPicker.tsx:25 | `split` gives at least one part, and no part contains the separator |
| Text.JoinSplit | src/frontend/components/DirectoryPicker.tsx:25 | joining the parts of a split with the separator gives the string back |
| Text.NonEmpty | src/frontend/components/DirectoryPicker.tsx:25 | `filter(Boolean)` keeps only non-empty parts, all taken from the input, and keeps every non-empty part of the input |
| Text.NonEmptyAppend | src/frontend/components/DirectoryPicker.tsx:25 | filtering keeps order: the filter of a concatenation is the concatenation of the filters |
| Text.NonEmptySingle | src/frontend/components/DirectoryPicker.tsx:25 | a single part is kept exactly when it is non-empty |
| Text.ContainsAt | src/sdk/manager.ts:376-377 | `includes` holds exactly when the text occurs at some position |
| Text.SkipSpaces | src/frontend/components/ChatView.tsx:99 | the scan from the start stops at the first character that is not white space, having passed only white space |
| Text.SkipSpacesBack | src/frontend/components/ChatView.tsx:99 | the scan from the end stops just after the last character that is not white space, having passed only white space |
| Text.Trim | src/frontend/components/ChatView.tsx:99 | `trim` is empty exactly for all-white-space input; otherwise it neither starts nor ends with white space; it occurs inside the input |
| Text.TrimInfix | src/frontend/components/ChatView.tsx:99 | `trim` cuts only white space, from either end; it keeps nothing exactly for blank input, and otherwise keeps text that starts and ends with a character that is not white space |
| Store.UpdateSessionId | src/db/index.ts:87-89 | sets the session id and stamps the update time on that row only; a missing row changes nothing |
| Store.UpdateTitle | src/db/index.ts:91-93 | sets the title and stamps the update time on that row only |
| Store.Touch | src/db/index.ts:95-97 | stamps the update time on that row only |
| Store.MarkArchived | src/db/index.ts:119-121 | sets the status to archived and stamps the archive and update times on that row only |
| Store.SetSummary | src/db/index.ts:123-125 | sets the summary and stamps the update time on that row only |
| Store.InsertMessage | src/db/index.ts:103-105 | appends the row to the messages and changes no conversation |
| Store.ListMessages | src/db/index.ts:107-109 | lists only rows of the conversation, all taken from the table |
| Store.ListAfterInsert | src/db/index.ts:103-109 | a new row appears at the end of its own conversation's listing and in no other listing |
| Store.ArchivedStays | src/db/index.ts:87-125 | no statement the relay uses un-archives a conversation |
| Translator.ToolInput | src/sdk/manager.ts:190-196 | the accumulated JSON text, or "{}" when it is falsy, is parsed; text that does not parse becomes `{ _raw: text }` |
| Translator.ToolUseIdOf | src/sdk/manager.ts:197 | a tool-use id is never empty: the block's own truthy id, else `tool-<index>` |
| Translator.FallbackIdsDiffer | src/sdk/manager.ts:197 | fallback ids at different stream indexes differ |
| Translator.ToolNameOf | src/sdk/manager.ts:198 | a tool name is never empty: the block's truthy name, else "unknown" |
| Translator.ResultError | src/sdk/manager.ts:361-366 | the result error is absent on success, and otherwise the SDK's errors joined with ", " |
| Translator.ResultsFor | src/sdk/manager.ts:318-328 | one successful `tool_use_result` per listed id, in list order, each carrying the given text |
| Translator.ResultsForSnoc | src/sdk/manager.ts:318-330 | the results for one more listed id are the earlier results plus one result for that id |
| Translator.SettleListed | src/sdk/manager.ts:318-330 | the loop over the listed ids sends `ResultsFor` the list and leaves the table minus every listed id |
| Translator.Flatten | src/sdk/manager.ts:234-259 | flattening an assistant turn keeps the pending-tool table's keys unique |
| Translator.FlattenTracks | src/sdk/manager.ts:241-253 | every tool_use block of a turn ends up tracked as pending, and entries tracked before are kept |
| Translator.FlattenShape | src/sdk/manager.ts:234-259 | the turn's text is its text blocks concatenated; one content block per recognised block; every tool card starts "running" |
| Translator.AssistantOutput | src/sdk/manager.ts:230-261 | a plain-string turn gives that text and one text block; any other non-array content gives nothing; only array content changes the pending-tool table |
| Translator.QueryRun.OnBlockStart | src/sdk/manager.ts:150-162 | records the block type at its index; a thinking block clears the thinking text; a tool_use block remembers its start block and opens an empty JSON buffer; nothing else changes |
| Translator.QueryRun.OnBlockDelta | src/sdk/manager.ts:163-183 | text and thinking pieces are sent at once and thinking also accumulates; JSON pieces accumulate at their index and are not sent |
| Translator.QueryRun.OnBlockStop | src/sdk/manager.ts:184-225 | a tool_use index sends exactly one `tool_use_start` with the fallback id, name and parsed input, tracks that tool and clears the index's buffers; other indexes send nothing; the index's type is always dropped |
| Translator.QueryRun.OnAssistant | src/sdk/manager.ts:229-273 | the turn's text, blocks and new pending-tool table are those of `AssistantOutput`, and the thinking text is cleared |
| Translator.QueryRun.OnToolProgress | src/sdk/manager.ts:286-308 | an untracked truthy id opens a card with a null input and is tracked; every progress event sends `Using <tool>...` |
| Translator.QueryRun.OnToolUseSummary | src/sdk/manager.ts:310-346 | the summary status is sent first; each listed id then gets a successful result and is untracked; with no list, only the most recently tracked truthy id is settled |
| Translator.QueryRun.OnResult | src/sdk/manager.ts:348-371 | every still-pending tool is completed in insertion order, then exactly one result is sent; no tool stays pending |
| Manager.ShouldAutoTitle | src/sdk/manager.ts:276 | a query qualifies for the automatic title exactly when its conversation has no truthy session id and still has the title "New conversation" |
| Manager.AutoTitle | src/sdk/manager.ts:276-282 | a message of up to 50 characters is the title; a longer one is cut to 50 characters plus "..." |
| Manager.ErrorText | src/sdk/manager.ts:375 | the error text is never empty: the error's message, else "Query failed" |
| Manager.IsSessionGone | src/sdk/manager.ts:376-380 | an error means the resumed session is gone when its text contains "exited with code", "session" or "ENOENT" |
| Manager.SessionGoneIff | src/sdk/manager.ts:376-380 | the session is taken to be gone exactly when one of those three markers occurs at some position of the error text |
| Manager.FirstSession | src/sdk/manager.ts:131-144 | the session id stored by a run is the first truthy one the stream carries, and none exactly when no message carries one |
| Manager.SummaryText | src/sdk/manager.ts:501-514 | the summary is the text of the last turn with array or string content (an array turn without text blocks gives the empty string, replacing earlier text); turns with other content are skipped, and it is empty when no turn has array or string content |
| Manager.SummaryTextIsLast | src/sdk/manager.ts:501-514 | when some turn has array or string content, the summary is the text of the last such turn (possibly empty), and every later turn has other content |
| Manager.FoldSummary | src/sdk/manager.ts:501-514 | the loop over the summary stream ends with `SummaryText` of the turns |
| Manager.RoleName | src/sdk/manager.ts:462 | the stored role in upper case: "USER" or "ASSISTANT" |
| Manager.TranscriptLine | src/sdk/manager.ts:462 | one transcript line: `[#n] `, the role in upper case, `: ` and the message content |
| Manager.TranscriptLineNumber | src/sdk/manager.ts:461-463 | each transcript line starts with `[#n] `, n reads back as the message's number, and the role name, `: ` and the content follow |
| Manager.Transcript | src/sdk/manager.ts:461-463 | the messages' lines, numbered from 1 in listing order, separated by a blank line |
| Manager.TranscriptShape | src/sdk/manager.ts:461-463 | a one-message transcript is that message's line; each further message adds a blank line and its own line, numbered one past the messages before it |
| Manager.FallbackSummary | src/sdk/manager.ts:526 | "Summary generation failed. Conversation had n messages." for n messages |
| Manager.FallbackSummaryCount | src/sdk/manager.ts:526 | the fallback summary is the fixed prefix, the decimal count and " messages.", and the count reads back from the text |
| Manager.SummaryFor | src/sdk/manager.ts:516-533 | a stored summary is never empty |
| Manager.Summarise | src/sdk/manager.ts:439-534 | an empty conversation gets the "No messages in this conversation." summary with no status; otherwise the status goes first; the store changes at most by setting this conversation's summary, and it changes exactly when `summary_ready` is announced |
| Manager.SummariseStores | src/sdk/manager.ts:454-533 | for a conversation with messages: a summary query that throws stores and announces the fallback text with the message count; one that yields text stores and announces `SummaryText` of its turns; one that yields none sends only the status and stores nothing |
| Manager.OwnedKeysMembers | src/sdk/manager.ts:401-402 | the swept ids are exactly the parked checks of the ending conversation |
| Manager.OwnedKeysExact | src/sdk/manager.ts:401-402 | in a table without repeated ids, an id is swept exactly when its check belongs to the conversation |
| Manager.SweepFacts | src/sdk/manager.ts:401-406 | the sweep removes exactly the conversation's checks and keeps every other check as it was |
| Manager.Denials | src/sdk/manager.ts:403 | one "Query ended" denial per swept id, in table order |
| Manager.SweepPermissions | src/sdk/manager.ts:400-406 | the loop over the checks leaves the table minus the conversation's checks and denies exactly those, in table order |
| Manager.Relay.ResolvePermission | src/sdk/manager.ts:26-38 | succeeds exactly for a parked id; the check is removed and resolved once, as allow with the original input or as deny "User denied permission"; an unknown id changes nothing |
| Manager.Relay.RequestPermission | src/sdk/manager.ts:88-102 | announces the request to the client and parks the check under the tool-use id with its conversation and input |
| Manager.Relay.InterruptQuery | src/sdk/manager.ts:410-415 | succeeds exactly when the conversation has a running query, which is then asked to stop; nothing else changes |
| Manager.Relay.GenerateSummary | src/sdk/manager.ts:439-534 | the loop over the summary stream produces the store and the messages that `Summarise` describes |
| Manager.Relay.ArchiveConversation | src/sdk/manager.ts:417-437 | a missing conversation gets "Conversation not found" and an archived one gets "Already archived", with nothing changed; otherwise it is marked archived, `archived` is sent and the summary is generated |
| Manager.Relay.Catch | src/sdk/manager.ts:374-395 | the state after the `catch` is `CaughtAfter` of the state before: a session-gone error on a resumed conversation archives it, sends `archived` and generates its summary; any other error sends one error message with the error text |
| Manager.Relay.Finish | src/sdk/manager.ts:396-407 | the query is unregistered and the state becomes `FinallyAfter` of the state before: the conversation touched, and exactly its parked checks denied and removed |
| Manager.Relay.CaptureSession | src/sdk/manager.ts:131-144 | the first truthy session id is stored on the conversation once; later ones change nothing |
| Manager.Relay.OnAssistantTurn | src/sdk/manager.ts:229-284 | the store becomes `TurnStored`: the turn is stored (its blocks only when there are any) and the title set to `AutoTitle` of the message exactly when the query qualified for it; the turn is sent, the pending-tool table replaced and the thinking text cleared, and nothing else of the run changes |
| Manager.Relay.HandleSdkMessage | src/sdk/manager.ts:133-372 | the relay state and the run state after one SDK message are exactly `SdkAfter` of those before: session capture, then per kind the messages `Translate` gives are sent, and an assistant turn is stored and may set the title; no query is registered or removed |
| Manager.Relay.HandleBody | src/sdk/manager.ts:146-372 | the relay state and the run state after the switch on the message kind are exactly `BodyAfter` of those before |
| Manager.Relay.HandleStreamEvent | src/sdk/manager.ts:147-227 | a partial-message event sends exactly the output of `StreamStep` and leaves the run in its state; the store and the checks are untouched |
| Manager.Relay.HandleEvent | src/sdk/manager.ts:88-372 | one event of the stream (an SDK message, a permission check, or the user's answer) leaves the state `EventAfter` computes |
| Manager.Relay.RunEvents | src/sdk/manager.ts:88-372 | after the whole stream, with the permission checks and answers interleaved, the relay and run state are `StreamAfter` of the state before, the fold of `EventAfter` over the events; the registry is unchanged |
| Manager.Relay.EndQuery | src/sdk/manager.ts:374-407 | the query is unregistered and the rest of the state is `EndAfter` of the state before: the `catch` when the stream threw, then the `finally` |
| Manager.Relay.RunQuery | src/sdk/manager.ts:68-407 | for an idle, existing conversation the registry ends as it was and the state is `QueryOutcome` of the state before, whose title, session, stored rows, sent messages and parked checks the `Query…` lemmas describe |
| Manager.Relay.StartQuery | src/sdk/manager.ts:44-408 | a missing conversation gets "Conversation not found" and a busy one "A query is already active for this conversation", with nothing changed; otherwise the registry ends as it was and the state is `QueryOutcome` of the state before; the sent log only grows |
| Manager.EventGrows | src/sdk/manager.ts:88-372 | one event only appends to the sent log, every message it sends is about the query's conversation, resolutions only grow, and no conversation appears or disappears |
| Manager.StreamGrows | src/sdk/manager.ts:88-372 | the same over the whole stream |
| Manager.EventRows | src/sdk/manager.ts:229-273 | one event adds exactly one assistant row of the conversation when it is a completed turn, and no row otherwise |
| Manager.StreamRows | src/sdk/manager.ts:133-372 | the stream adds, after the rows that were there, exactly one assistant row of the conversation per completed turn |
| Manager.EventSession | src/sdk/manager.ts:137-144 | an SDK message with a truthy session id stores it when none was captured yet; nothing else touches the session id or the capture flag |
| Manager.StreamSession | src/sdk/manager.ts:131-144 | starting uncaptured, the run captures exactly when some message carries a truthy id, and the stored id is the first such id, else the one the conversation had |
| Manager.EventTitle | src/sdk/manager.ts:275-282 | a completed turn sets the title to `AutoTitle` of the message when the query qualified; no other event changes the title |
| Manager.StreamTitle | src/sdk/manager.ts:275-282 | over the stream the title becomes `AutoTitle` of the message exactly when the query qualified and at least one turn completed, and otherwise stays as it was |
| Manager.EndStore | src/sdk/manager.ts:374-399 | ending a query keeps the conversations, the stored rows, the title and the session id; a session-gone error on a resumed conversation leaves it archived |
| Manager.EndSends | src/sdk/manager.ts:374-395 | ending sends only messages about the conversation: nothing when the stream ran out, exactly one error with the error text for an ordinary error, `archived` first for a gone resumed session |
| Manager.EndChecks | src/sdk/manager.ts:396-407 | ending denies each parked check of the conversation with "Query ended", in table order, and removes it; every other check stays parked unchanged |
| Manager.QueryTitle | src/sdk/manager.ts:275-282 | after a query the title is `AutoTitle` of the message exactly when the conversation had no session and the default title and at least one assistant turn completed; otherwise it is the title it had |
| Manager.QuerySession | src/sdk/manager.ts:131-144 | after a query the session id is the first truthy one the stream carried, otherwise the one the conversation had |
| Manager.QueryMessages | src/sdk/manager.ts:117-284 | a query stores the user message first, then exactly one assistant row of the conversation per completed turn, and keeps every earlier row |
| Manager.QuerySends | src/sdk/manager.ts:44-408 | everything a query sends follows what was sent before and is about its conversation; resolutions only grow; a thrown error ends the log with the error message, or archives a resumed conversation whose session is gone |
| Manager.AutoTitleOnce | src/sdk/manager.ts:68 | once a query's stream has carried a session id, the conversation no longer qualifies for the automatic title |
| Manager.QueryLeavesNoCheck | src/sdk/manager.ts:400-406 | after a query no check of its conversation is parked |
| Translator.Translate | src/sdk/manager.ts:146-372 | translating one SDK message keeps the pending-tool table free of repeated ids, never captures a session, and sends only messages about the conversation |
| Translator.StreamStep | src/sdk/manager.ts:147-227 | a partial-message event keeps the table free of repeated ids and the capture flag, and sends only messages about the conversation |
| UseChat.GetOrCreatePending | src/frontend/hooks/useChat.ts:42-59 | the last message is reused when it is a pending assistant message; otherwise an empty pending one is appended; either way the index points at a pending last message |
| UseChat.PendingOf | src/frontend/hooks/useChat.ts:42-59 | the message a streaming update edits is a pending assistant message |
| UseChat.WithText | src/frontend/hooks/useChat.ts:65-80 | the pending message's content becomes the buffered text; no other field changes |
| UseChat.WithThinking | src/frontend/hooks/useChat.ts:82-97 | the pending message's thinking becomes the buffered thinking; no other field changes |
| UseChat.WithToolStart | src/frontend/hooks/useChat.ts:99-117 | a running tool card is appended to the pending message's blocks |
| UseChat.ToolStartTwice | src/frontend/hooks/useChat.ts:99-117 | a repeated `tool_use_start` adds a second card; it is not de-duplicated |
| UseChat.Finalize | src/frontend/hooks/useChat.ts:147-180 | a pending message is finalised in place, otherwise one is appended; content is set and thinking cleared; blocks come from the event, else from the pending message, since an empty array is truthy; no message stays pending |
| UseChat.UpdatersKeepEarlier | src/frontend/hooks/useChat.ts:42-180 | streaming updates change only the last message or add one; all earlier messages are kept |
| UseChat.FindBlock | src/frontend/hooks/useChat.ts:127-129 | `findIndex`: the first tool card with the id, or -1 when none |
| UseChat.LastHolder | src/frontend/hooks/useChat.ts:124-140 | the last message holding a card with the id, or -1 when none |
| UseChat.ApplyToolResult | src/frontend/hooks/useChat.ts:119-145 | the list keeps its length, and is unchanged when no message holds the card |
| UseChat.ToolResultSettlesOneCard | src/frontend/hooks/useChat.ts:119-145 | the result settles exactly one card: the first with the id in the last message holding one; it gets the status (error or completed) and the result, and nothing else changes |
| UseChat.ToolUseResultUpdate | src/frontend/hooks/useChat.ts:119-145 | the backward loop with its early exit computes `ApplyToolResult` |
| UseChat.DuplicateCardStaysRunning | src/frontend/hooks/useChat.ts:99-145 | after two starts with one id, a result completes the earlier card and leaves the later one running |
| UseChat.OtherConversationsUntouched | src/frontend/hooks/useChat.ts:61-215 | an event never changes another conversation's list |
| UseChat.BufferIsDeltasSinceReset | src/frontend/hooks/useChat.ts:65-80 | with no reset in between, a conversation's text buffer grows by exactly its text deltas, in order |
| UseChat.BufferAfterReset | src/frontend/hooks/useChat.ts:147-213 | after an assistant message, result or error, the buffer holds only the deltas that came later |
| UseChat.AfterAllAppend | src/frontend/hooks/useChat.ts:65-80 | folding two runs of events in turn equals folding their concatenation |
| UseChat.ThinkingIsDeltasSinceReset | src/frontend/hooks/useChat.ts:82-97 | with no reset in between, a conversation's thinking buffer grows by exactly its thinking deltas, in order |
| UseChat.ThinkingAfterReset | src/frontend/hooks/useChat.ts:147-213 | after an assistant message, result or error, the thinking buffer holds only the thinking deltas that came later |
| UseChat.ThinkingAfterAllAppend | src/frontend/hooks/useChat.ts:82-97 | folding two runs of events through the thinking buffer in turn equals folding their concatenation |
| UseChat.ChatHook.AddUserMessage | src/frontend/hooks/useChat.ts:22-39 | appends the user message, marks the conversation's query active, clears the status and the conversation's buffers |
| UseChat.ChatHook.ClearMessages | src/frontend/hooks/useChat.ts:255-261 | removes the conversation's list and changes nothing else |
| UseChat.ChatHook.OnTextDelta | src/frontend/hooks/useChat.ts:65-80 | a text delta grows the conversation's buffer and shows the whole buffer in the pending message; status and query are kept |
| UseChat.ChatHook.OnThinkingDelta | src/frontend/hooks/useChat.ts:82-97 | a thinking delta grows the thinking buffer and shows it in the pending message |
| UseChat.ChatHook.OnToolUseStart | src/frontend/hooks/useChat.ts:99-117 | a running card joins the pending message; buffers, status and query are kept |
| UseChat.ChatHook.OnToolUseResult | src/frontend/hooks/useChat.ts:119-145 | the conversation's list becomes `ApplyToolResult` of it; nothing else changes |
| UseChat.ChatHook.OnAssistantMessage | src/frontend/hooks/useChat.ts:147-180 | both buffers of the conversation are emptied and the pending message finalised |
| UseChat.ChatHook.OnResult | src/frontend/hooks/useChat.ts:187-193 | the query and the status are cleared, and so are the conversation's buffers; the lists are kept |
| UseChat.ChatHook.OnError | src/frontend/hooks/useChat.ts:195-213 | as a result, and an assistant message "Error: " plus the error text is appended to the conversation |
| UseChat.ChatHook.HandleServerMessage | src/frontend/hooks/useChat.ts:61-215 | buffers, lists, status and active query become the reducer's functions of the event: deltas feed buffers, resets clear them, status sets the status, and a result or error clears the query |
| WsHandler.HandleWsMessage | src/ws/handler.ts:13-76 | bad JSON gets "Invalid JSON"; `null` throws and does nothing else; at most one reply, always an error; a chat frame with both fields makes exactly one call, starting the query with those fields, and one missing either field gets exactly "Missing conversationId or message" on its conversation id or on ""; an interrupt with an id makes exactly the interrupt call, followed by "No active query to interrupt" on that id exactly when nothing was interrupted; archive and permission answers never reply; an unknown type is named in the error; an interrupt or archive without a conversation id, a permission answer without a permission id and a user-input answer without a request id or answers do nothing; otherwise archive, permission and user-input answers make exactly one call with the frame's fields, the permission call carrying the truthiness of `approved` |
| WsHandler.InterruptReplies | src/ws/handler.ts:41-51 | an interrupt for a named conversation always reaches the relay, and is answered exactly when no query was running |
| WsHandler.MissingMessageAnswered | src/ws/handler.ts:26-39 | a chat frame without a message is answered on its own conversation |
| WsHandler.WsSend | src/ws/handler.ts:79-88 | a send on an open socket delivers the message last; on a closed one it is dropped silently |
| Summarize.Shorten | src/frontend/utils/summarize-tool-input.ts:10-15 | a command of up to 80 characters is kept; a longer one becomes its first 80 characters plus "..." |
| Summarize.SummarizeToolInput | src/frontend/utils/summarize-tool-input.ts:1-27 | each known tool shows its salient string field (a path, command, pattern, url or description); Grep's pattern goes between slashes; unknown tools and non-object input show "" |
| Summarize.BashSummaryBound | src/frontend/utils/summarize-tool-input.ts:10-15 | a Bash summary is at most 83 characters and agrees with the command on what it shows |
| Summarize.GrepSummaryRoundTrip | src/frontend/utils/summarize-tool-input.ts:18-19 | the pattern can be read back from between the Grep summary's slashes |
| HomePath.MatchHome | src/frontend/components/DirectoryPicker.tsx:10 | the match exists exactly when the path starts with `/home/` and a non-slash; it is then the longest slash-free user segment, a prefix of the path |
| HomePath.UnderHomeIffMatch | src/frontend/components/DirectoryPicker.tsx:10-11 | the `startsWith` test after a match always holds |
| DirectoryPicker.AbbreviatePath | src/frontend/components/DirectoryPicker.tsx:9-15 | a path under `/home/<user>` becomes "~" plus the rest, so the home prefix and the rest give the path back; any other path is unchanged |
| DirectoryPicker.ChainAt | src/frontend/components/DirectoryPicker.tsx:26-30 | the i-th crumb is labelled with the i-th part and opens the base joined with the parts up to it |
| DirectoryPicker.ChainLinks | src/frontend/components/DirectoryPicker.tsx:26-30 | each crumb opens its predecessor's path plus "/" plus its label |
| DirectoryPicker.Components | src/frontend/components/DirectoryPicker.tsx:25 | components are non-empty and slash-free, and a non-empty string is a component exactly when it is a piece of the path split at slashes |
| DirectoryPicker.BreadcrumbSegments | src/frontend/components/DirectoryPicker.tsx:17-43 | both loops build exactly the crumbs `Crumbs` describes |
| DirectoryPicker.CrumbsShape | src/frontend/components/DirectoryPicker.tsx:17-43 | the trail starts at "~" for a home path and at "/" otherwise, with one crumb per component; labels are non-empty and slash-free; each crumb extends the previous one's path by "/" and its label |
| DirectoryPicker.LastCrumbIsPath | src/frontend/components/DirectoryPicker.tsx:17-43 | for the root, the home directory, or a path without doubled or trailing slashes, the last crumb opens the path itself |
| DirectoryPicker.LastCrumbUnderHome | src/frontend/components/DirectoryPicker.tsx:17-43 | under the home directory, with no doubled or trailing slash after it, the last crumb opens the path itself (the `~` crumb for the home directory) |
| DirectoryPicker.LastCrumbOutsideHome | src/frontend/components/DirectoryPicker.tsx:17-43 | outside the home directory, for the root or an absolute path with no doubled or trailing slash, the last crumb opens the path itself |
| DirectoryPicker.ChainEndsAt | src/frontend/components/DirectoryPicker.tsx:25-39 | the crumbs built on a base from an absolute path without empty parts end at the base joined with the path |
| DirectoryPicker.ChainShape | src/frontend/components/DirectoryPicker.tsx:25-39 | each crumb built from non-empty, slash-free parts is labelled by one part and opens its predecessor's directory (the base for the first) plus "/" plus its label |
| ChatView.AbbreviateCwd | src/frontend/components/ChatView.tsx:15-20 | no directory is shown for an absent or empty one; otherwise the header abbreviates as the picker does |
| ChatView.CwdAgreesWithPicker | src/frontend/components/ChatView.tsx:15-20 | for a non-empty directory, the header and the picker show the same text |
| ChatView.HandleSubmit | src/frontend/components/ChatView.tsx:98-102 | the trimmed input is sent and the box cleared exactly when it is non-empty, no query runs and the conversation is not archived; otherwise nothing is sent and the input stays |
| ChatView.SentText | src/frontend/components/ChatView.tsx:98-102 | a sent message is never blank and has no surrounding white space; all-white-space input is never sent |

## Left out

- The agent SDK itself. The stream is the sequence of events a run receives, and
  `q.interrupt()` only sets a flag on the query handle. The prompts, query options and
  system-prompt preset are not modelled.
- The summary query. It is an oracle applied to the transcript, giving the assistant turns
  or an exception.
- Promises and `await` interleavings:
  - A parked check's `resolve` is a log of resolutions.
  - Concurrent queries on other conversations are not interleaved.
  - `generateSummary`, started in the background from the `catch` of `startQuery`, is run
    to completion before the `finally`. With the model's fixed clock the two commute, since
    `finally` only touches the row and sends nothing.
- SQLite:
  - It is a value with one fixed clock, which is never advanced.
  - Random row ids and `created_at` are not modelled; message rows are listed in insertion
    order.
  - Statements the core does not use (create, delete, list conversations) are left out.
- `JSON.parse` is an opaque parameter. The client frames are given already parsed. A
  non-string value in a string field (type, ids, content, cwd) counts as an absent field;
  `approved` and `answers` keep their JSON value and are read by truthiness.
- `costUsd` and `durationMs` of the result message are not modelled.
- JSON numbers are integers: a fractional number has no value in the model. The relay only
  reads JSON values for truthiness, where every non-zero number is truthy either way.
- `isQueryActive` (a lookup in the registry, called from outside the relay) is not modelled;
  `startQuery` and `interruptQuery` test the registry directly, as the source does.
- Separate sockets: every `send` goes into one log, in order.
- String lengths count characters, not UTF-16 code units. Characters outside the Basic
  Multilingual Plane are not split into surrogate pairs.
- An error without a `message` is treated as one with an empty message, which gives
  "Query failed".
- `resolveUserInput` is called by the dispatcher but defined nowhere in the relay. The model
  emits only the call action.
- `getActiveQueryIds`, `updatePermissionStatus` and the `user_input_request`,
  `active_queries` and `tool_use_progress` events are not modelled: the relay never produces
  them. The reducer leaves the lists unchanged for them.
- `loadMessages` and `getMessages` of the hook (an HTTP fetch and a lookup) are not
  modelled. React batching is modelled as applying each update in turn.
- Rendering, styling, the textarea height reset after submit, and console logging.
- Summarize.BashSummaryBound: states an implication, not an equivalence, between "the summary
  is the command" and "the command fits in 80 characters". An 83-character command ending in
  "..." is its own summary, so the equivalence does not hold.

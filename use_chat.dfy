/** The client-side reducer of src/frontend/hooks/useChat.ts: it folds the relay's outbound
    messages into one list of chat messages per conversation. The list updaters are pure
    functions over sequences; the hook's state and its two text buffers live in a class. */
module UseChat {
  import opened Values
  import opened Protocol
  import opened Store

  /** A chat message as the client shows it; `pending` is false where the source leaves it
      undefined. The random message id is not modelled. */
  datatype ChatMessageItem = ChatMessageItem(
    role: Role,
    content: string,
    pending: bool,
    contentBlocks: Option<seq<ContentBlock>>,
    pendingThinking: Option<string>)

  type Conversations = map<string, seq<ChatMessageItem>>

  /** `prev[convId] || []` */
  function Messages(byConv: Conversations, c: string): seq<ChatMessageItem> {
    if c in byConv then byConv[c] else []
  }

  /** `buffer[convId] || ""` */
  function Buffered(buffers: map<string, string>, c: string): string {
    if c in buffers then buffers[c] else ""
  }

  /** The last message is an assistant message still being streamed. */
  predicate HasPending(msgs: seq<ChatMessageItem>) {
    |msgs| > 0 && msgs[|msgs| - 1].pending && msgs[|msgs| - 1].role == Assistant
  }

  const NewPending: ChatMessageItem := ChatMessageItem(Assistant, "", true, Some([]), None)

  /** `getOrCreatePending`: the pending assistant message is reused when it is last; otherwise
      exactly one empty pending assistant message is appended. */
  function GetOrCreatePending(msgs: seq<ChatMessageItem>): (r: (seq<ChatMessageItem>, nat))
    ensures HasPending(msgs) ==> r.0 == msgs && r.1 == |msgs| - 1
    ensures !HasPending(msgs) ==> r.0 == msgs + [NewPending] && r.1 == |msgs|
    ensures HasPending(r.0) && r.1 == |r.0| - 1
  {
    if HasPending(msgs) then (msgs, |msgs| - 1) else (msgs + [NewPending], |msgs|)
  }

  /** The message an updater starts from: the pending last message, or a fresh one. */
  function PendingOf(msgs: seq<ChatMessageItem>): (m: ChatMessageItem)
    ensures m.pending && m.role == Assistant
    ensures HasPending(msgs) ==> m == msgs[|msgs| - 1]
    ensures !HasPending(msgs) ==> m == NewPending
  {
    var (updated, i) := GetOrCreatePending(msgs);
    updated[i]
  }

  /** Writes the updated pending message back where `getOrCreatePending` found or put it. */
  function UpdatePending(msgs: seq<ChatMessageItem>, m: ChatMessageItem): seq<ChatMessageItem>
    requires m.pending && m.role == Assistant
  {
    var (updated, i) := GetOrCreatePending(msgs);
    updated[i := m]
  }

  /** How many leading messages an update of the pending message leaves alone. */
  function Earlier(msgs: seq<ChatMessageItem>): nat {
    if HasPending(msgs) then |msgs| - 1 else |msgs|
  }

  /** `r` starts with the messages of `msgs` that precede its pending message. */
  predicate KeepsEarlier(msgs: seq<ChatMessageItem>, r: seq<ChatMessageItem>) {
    Earlier(msgs) <= |r| && r[..Earlier(msgs)] == msgs[..Earlier(msgs)]
  }

  /** The `text_delta` updater: the pending message (found or created) shows the whole
      buffered text. */
  function WithText(msgs: seq<ChatMessageItem>, text: string): (r: seq<ChatMessageItem>)
    ensures |r| == Earlier(msgs) + 1
    ensures HasPending(r) && r[|r| - 1] == PendingOf(msgs).(content := text)
  {
    UpdatePending(msgs, PendingOf(msgs).(content := text))
  }

  /** The `thinking_delta` updater: the pending message shows the whole buffered thinking. */
  function WithThinking(msgs: seq<ChatMessageItem>, thinking: string): (r: seq<ChatMessageItem>)
    ensures |r| == Earlier(msgs) + 1
    ensures HasPending(r) && r[|r| - 1] == PendingOf(msgs).(pendingThinking := Some(thinking))
  {
    UpdatePending(msgs, PendingOf(msgs).(pendingThinking := Some(thinking)))
  }

  function BlocksOf(m: ChatMessageItem): seq<ContentBlock> {
    if m.contentBlocks.Some? then m.contentBlocks.value else []
  }

  /** The `tool_use_start` updater: exactly one block is appended to the pending message's
      blocks, after the existing ones, whatever ids those carry. */
  function WithToolStart(msgs: seq<ChatMessageItem>, block: ContentBlock): (r: seq<ChatMessageItem>)
    ensures |r| == Earlier(msgs) + 1
    ensures HasPending(r)
    ensures r[|r| - 1] == PendingOf(msgs).(contentBlocks := Some(BlocksOf(PendingOf(msgs)) + [block]))
  {
    var pending := PendingOf(msgs);
    UpdatePending(msgs, pending.(contentBlocks := Some(BlocksOf(pending) + [block])))
  }

  /** Two `tool_use_start`s for the same id give two cards: the updater does not de-duplicate. */
  lemma {:induction false} ToolStartTwice(msgs: seq<ChatMessageItem>, block: ContentBlock)
    ensures var r := WithToolStart(WithToolStart(msgs, block), block);
      var bs := BlocksOf(r[|r| - 1]);
      |bs| >= 2 && bs[|bs| - 2] == block && bs[|bs| - 1] == block
  {
    var once := WithToolStart(msgs, block);
    assert PendingOf(once) == once[|once| - 1];
  }

  /** The `assistant_message` updater: a pending assistant message is finalised in place (its
      blocks kept when the event carries none, since an empty array is truthy); otherwise the
      message is appended. No pending message is left. */
  function Finalize(msgs: seq<ChatMessageItem>, content: string, blocks: Option<seq<ContentBlock>>): (r: seq<ChatMessageItem>)
    ensures |r| == Earlier(msgs) + 1 && !HasPending(r)
    ensures r[|r| - 1].role == Assistant && r[|r| - 1].content == content && r[|r| - 1].pendingThinking == None
    ensures r[|r| - 1].contentBlocks ==
      if blocks.Some? then blocks else if HasPending(msgs) then msgs[|msgs| - 1].contentBlocks else None
  {
    if HasPending(msgs) then
      var last := msgs[|msgs| - 1];
      msgs[|msgs| - 1 := last.(content := content, pending := false,
                               contentBlocks := if blocks.Some? then blocks else last.contentBlocks,
                               pendingThinking := None)]
    else
      msgs + [ChatMessageItem(Assistant, content, false, blocks, None)]
  }

  /** The streaming updaters touch only the pending message (or the slot after the last
      message); every message before it is kept. */
  lemma UpdatersKeepEarlier(msgs: seq<ChatMessageItem>, text: string, block: ContentBlock,
                            content: string, blocks: Option<seq<ContentBlock>>)
    ensures KeepsEarlier(msgs, WithText(msgs, text))
    ensures KeepsEarlier(msgs, WithThinking(msgs, text))
    ensures KeepsEarlier(msgs, WithToolStart(msgs, block))
    ensures KeepsEarlier(msgs, Finalize(msgs, content, blocks))
  {
  }

  function ErrorItem(message: string): ChatMessageItem {
    ChatMessageItem(Assistant, "Error: " + message, false, None, None)
  }

  // ---------------------------------------------------------------------------------------
  // tool_use_result

  predicate IsToolBlock(b: ContentBlock, id: string) {
    b.ToolUseBlock? && b.id == id
  }

  /** `blocks.findIndex(b => b.type === "tool_use" && b.id === id)` */
  function FindBlock(blocks: seq<ContentBlock>, id: string): (j: int)
    ensures -1 <= j < |blocks|
    ensures j >= 0 ==> IsToolBlock(blocks[j], id) && forall k :: 0 <= k < j ==> !IsToolBlock(blocks[k], id)
    ensures j < 0 ==> forall k :: 0 <= k < |blocks| ==> !IsToolBlock(blocks[k], id)
    decreases |blocks|
  {
    if blocks == [] then -1
    else if IsToolBlock(blocks[0], id) then 0
    else
      var j := FindBlock(blocks[1..], id);
      if j < 0 then -1 else j + 1
  }

  predicate Holds(m: ChatMessageItem, id: string) {
    m.contentBlocks.Some? && FindBlock(m.contentBlocks.value, id) >= 0
  }

  /** The last message holding a tool card with this id, or -1. */
  function LastHolder(msgs: seq<ChatMessageItem>, id: string): (i: int)
    ensures -1 <= i < |msgs|
    ensures i >= 0 ==> Holds(msgs[i], id) && forall k :: i < k < |msgs| ==> !Holds(msgs[k], id)
    ensures i < 0 ==> forall k :: 0 <= k < |msgs| ==> !Holds(msgs[k], id)
    decreases |msgs|
  {
    if msgs == [] then -1
    else if Holds(msgs[|msgs| - 1], id) then |msgs| - 1
    else LastHolder(msgs[..|msgs| - 1], id)
  }

  function Settled(b: ContentBlock, result: string, isError: bool): ContentBlock
    requires b.ToolUseBlock?
  {
    b.(status := if isError then Errored else Completed, result := Some(result))
  }

  /** What `tool_use_result` makes of a conversation's messages: the first card with the id in
      the last message that has one is settled; nothing else changes. */
  function ApplyToolResult(msgs: seq<ChatMessageItem>, id: string, result: string, isError: bool): (r: seq<ChatMessageItem>)
    ensures |r| == |msgs|
    ensures LastHolder(msgs, id) < 0 ==> r == msgs
  {
    var i := LastHolder(msgs, id);
    if i < 0 then msgs
    else
      var blocks := msgs[i].contentBlocks.value;
      var j := FindBlock(blocks, id);
      msgs[i := msgs[i].(contentBlocks := Some(blocks[j := Settled(blocks[j], result, isError)]))]
  }

  /** A result settles the first card with its id in the last message holding one, and
      changes nothing else: no other message, no other block, no other field. */
  lemma ToolResultSettlesOneCard(msgs: seq<ChatMessageItem>, id: string, result: string, isError: bool)
    ensures var r := ApplyToolResult(msgs, id, result, isError);
      LastHolder(msgs, id) >= 0 ==> (
        var i := LastHolder(msgs, id);
      var blocks := msgs[i].contentBlocks.value;
      var j := FindBlock(blocks, id);
      && (forall k :: 0 <= k < |msgs| && k != i ==> r[k] == msgs[k])
      && r[i].role == msgs[i].role && r[i].content == msgs[i].content && r[i].pending == msgs[i].pending
      && r[i].pendingThinking == msgs[i].pendingThinking
      && r[i].contentBlocks.Some? && |r[i].contentBlocks.value| == |blocks|
      && (forall k :: 0 <= k < |blocks| && k != j ==> r[i].contentBlocks.value[k] == blocks[k])
      && r[i].contentBlocks.value[j].ToolUseBlock?
      && r[i].contentBlocks.value[j].status == (if isError then Errored else Completed)
      && r[i].contentBlocks.value[j].result == Some(result)
      && r[i].contentBlocks.value[j].id == id)
  {
  }

  /** The backward walk of the `tool_use_result` case, which stops at the first message
      (from the end) holding a matching card. */
  method ToolUseResultUpdate(msgs: seq<ChatMessageItem>, id: string, result: string, isError: bool)
    returns (updated: seq<ChatMessageItem>)
    ensures updated == ApplyToolResult(msgs, id, result, isError)
  {
    updated := msgs;
    var i := |updated| - 1;
    while i >= 0
      invariant -1 <= i < |msgs|
      invariant updated == msgs
      invariant forall k :: i < k < |msgs| ==> !Holds(msgs[k], id)
    {
      var m := updated[i];
      if m.contentBlocks.Some? {
        var blockIdx := FindBlock(m.contentBlocks.value, id);
        if blockIdx != -1 {
          var blocks := m.contentBlocks.value;
          blocks := blocks[blockIdx := Settled(blocks[blockIdx], result, isError)];
          updated := updated[i := m.(contentBlocks := Some(blocks))];
          LastHolderIs(msgs, id, i);
          return;
        }
      }
      i := i - 1;
    }
    LastHolderIs(msgs, id, -1);
  }

  /** The contract of LastHolder determines its value. */
  lemma {:induction false} LastHolderIs(msgs: seq<ChatMessageItem>, id: string, i: int)
    requires -1 <= i < |msgs|
    requires i >= 0 ==> Holds(msgs[i], id)
    requires forall k :: i < k < |msgs| ==> !Holds(msgs[k], id)
    requires i < 0 ==> forall k :: 0 <= k < |msgs| ==> !Holds(msgs[k], id)
    ensures LastHolder(msgs, id) == i
    decreases |msgs|
  {
    if msgs != [] && i != |msgs| - 1 {
      var p := msgs[..|msgs| - 1];
      assert forall k :: 0 <= k < |p| ==> p[k] == msgs[k];
      LastHolderIs(p, id, i);
    }
  }

  /** A result for an id with two cards settles only the earlier one: the later card keeps
      its "running" status. */
  lemma DuplicateCardStaysRunning(msgs: seq<ChatMessageItem>, block: ContentBlock, result: string)
    requires block.ToolUseBlock? && block.status == Running
    requires forall m :: m in msgs ==> !Holds(m, block.id)
    ensures var twice := WithToolStart(WithToolStart(msgs, block), block);
      var r := ApplyToolResult(twice, block.id, result, false);
      var bs := BlocksOf(r[|r| - 1]);
      |bs| >= 2 && bs[|bs| - 2].status == Completed && bs[|bs| - 1].status == Running
  {
    var twice := WithToolStart(WithToolStart(msgs, block), block);
    ToolStartTwice(msgs, block);
    var n := |twice| - 1;
    var bs := BlocksOf(twice[n]);
    var before := BlocksOf(PendingOf(WithToolStart(msgs, block)));
    var first := BlocksOf(PendingOf(msgs));
    assert before == first + [block];
    assert bs == first + [block] + [block];
    assert !Holds(PendingOf(msgs), block.id) by {
      if !HasPending(msgs) {
        assert PendingOf(msgs) == NewPending;
      } else {
        assert PendingOf(msgs) == msgs[|msgs| - 1];
      }
    }
    if PendingOf(msgs).contentBlocks.Some? {
      assert FindBlock(first, block.id) < 0;
    }
    assert forall k :: 0 <= k < |first| ==> !IsToolBlock(bs[k], block.id);
    assert FindBlock(bs, block.id) == |first|;
    LastHolderIs(twice, block.id, n);
  }

  // ---------------------------------------------------------------------------------------
  // The hook's state transitions

  /** The conversation whose buffers `result`, `error` and `assistant_message` reset. */
  predicate IsReset(msg: ServerMessage) {
    msg.AssistantMessage? || msg.ResultMessage? || msg.Error?
  }

  predicate Resets(msg: ServerMessage, c: string) {
    IsReset(msg) && msg.conversationId == c
  }

  /** `pendingTextRef` after `msg`: a text delta is appended to its conversation's buffer; the
      three resetting messages empty it. */
  function TextAfter(buffers: map<string, string>, msg: ServerMessage): map<string, string> {
    if msg.TextDelta? then buffers[msg.conversationId := Buffered(buffers, msg.conversationId) + msg.text]
    else if IsReset(msg) then buffers[msg.conversationId := ""]
    else buffers
  }

  /** `pendingThinkingRef` after `msg`, likewise for thinking deltas. */
  function ThinkingAfter(buffers: map<string, string>, msg: ServerMessage): map<string, string> {
    if msg.ThinkingDelta? then buffers[msg.conversationId := Buffered(buffers, msg.conversationId) + msg.text]
    else if IsReset(msg) then buffers[msg.conversationId := ""]
    else buffers
  }

  /** The cases of `handleServerMessage` that call `setMessagesByConv`. */
  predicate UpdatesList(msg: ServerMessage) {
    msg.TextDelta? || msg.ThinkingDelta? || msg.ToolUseStart? || msg.ToolUseResult?
    || msg.AssistantMessage? || msg.Error?
  }

  /** The list updater of each such case, given the buffers as they stand after `msg`. */
  function ListAfter(msgs: seq<ChatMessageItem>, msg: ServerMessage, text: string, thinking: string): seq<ChatMessageItem>
    requires UpdatesList(msg)
  {
    match msg
    case TextDelta(_, _) => WithText(msgs, text)
    case ThinkingDelta(_, _) => WithThinking(msgs, thinking)
    case ToolUseStart(_, toolUseId, toolName, input) => WithToolStart(msgs, RunningToolBlock(toolUseId, toolName, input))
    case ToolUseResult(_, toolUseId, result, isError) => ApplyToolResult(msgs, toolUseId, result, isError)
    case AssistantMessage(_, content, blocks) => Finalize(msgs, content, blocks)
    case Error(_, message) => msgs + [ErrorItem(message)]
  }

  /** `messagesByConv` after `msg`: only the list of `msg`'s conversation is replaced. */
  function MessagesAfter(byConv: Conversations, msg: ServerMessage, texts: map<string, string>, thinkings: map<string, string>): Conversations {
    if UpdatesList(msg) then
      var c := msg.conversationId;
      byConv[c := ListAfter(Messages(byConv, c), msg, Buffered(texts, c), Buffered(thinkings, c))]
    else byConv
  }

  /** A message never changes another conversation's list. */
  lemma OtherConversationsUntouched(byConv: Conversations, msg: ServerMessage, texts: map<string, string>,
                                    thinkings: map<string, string>, k: string)
    ensures var r := MessagesAfter(byConv, msg, texts, thinkings);
      && (msg.ActiveQueries? ==> r == byConv)
      && (!msg.ActiveQueries? && k != msg.conversationId ==>
            (k in r <==> k in byConv) && Messages(r, k) == Messages(byConv, k))
  {
  }

  /** The concatenation of the text of `c`'s deltas in `msgs`. */
  function DeltaText(msgs: seq<ServerMessage>, c: string): string
    decreases |msgs|
  {
    if msgs == [] then ""
    else
      var last := msgs[|msgs| - 1];
      DeltaText(msgs[..|msgs| - 1], c) + (if last.TextDelta? && last.conversationId == c then last.text else "")
  }

  function TextAfterAll(buffers: map<string, string>, msgs: seq<ServerMessage>): map<string, string>
    decreases |msgs|
  {
    if msgs == [] then buffers else TextAfter(TextAfterAll(buffers, msgs[..|msgs| - 1]), msgs[|msgs| - 1])
  }

  /** Between two resets, a conversation's text buffer grows by exactly the text of its own
      deltas, in order; other conversations' messages do not touch it. */
  lemma {:induction false} BufferIsDeltasSinceReset(buffers: map<string, string>, msgs: seq<ServerMessage>, c: string)
    requires forall i :: 0 <= i < |msgs| ==> !Resets(msgs[i], c)
    ensures Buffered(TextAfterAll(buffers, msgs), c) == Buffered(buffers, c) + DeltaText(msgs, c)
    decreases |msgs|
  {
    if msgs != [] {
      var init := msgs[..|msgs| - 1];
      var last := msgs[|msgs| - 1];
      BufferIsDeltasSinceReset(buffers, init, c);
      var mid := TextAfterAll(buffers, init);
      assert TextAfterAll(buffers, msgs) == TextAfter(mid, last);
      assert DeltaText(msgs, c) == DeltaText(init, c) + (if last.TextDelta? && last.conversationId == c then last.text else "");
      assert !Resets(last, c);
    }
  }

  /** After a reset of `c`, the buffer holds the deltas that came after the reset. */
  lemma {:induction false} BufferAfterReset(buffers: map<string, string>, before: seq<ServerMessage>,
                                            reset: ServerMessage, after: seq<ServerMessage>, c: string)
    requires Resets(reset, c)
    requires forall i :: 0 <= i < |after| ==> !Resets(after[i], c)
    ensures Buffered(TextAfterAll(buffers, before + [reset] + after), c) == DeltaText(after, c)
  {
    var mid := TextAfterAll(buffers, before + [reset]);
    assert (before + [reset])[..|before|] == before;
    assert Buffered(mid, c) == "";
    AfterAllAppend(buffers, before + [reset], after);
    BufferIsDeltasSinceReset(mid, after, c);
  }

  lemma {:induction false} AfterAllAppend(buffers: map<string, string>, xs: seq<ServerMessage>, ys: seq<ServerMessage>)
    ensures TextAfterAll(buffers, xs + ys) == TextAfterAll(TextAfterAll(buffers, xs), ys)
    decreases |ys|
  {
    if ys != [] {
      assert (xs + ys)[..|xs + ys| - 1] == xs + ys[..|ys| - 1];
      AfterAllAppend(buffers, xs, ys[..|ys| - 1]);
    } else {
      assert xs + ys == xs;
    }
  }

  /** The concatenation of the text of `c`'s thinking deltas in `msgs`. */
  function ThinkingDeltaText(msgs: seq<ServerMessage>, c: string): string
    decreases |msgs|
  {
    if msgs == [] then ""
    else
      var last := msgs[|msgs| - 1];
      ThinkingDeltaText(msgs[..|msgs| - 1], c) + (if last.ThinkingDelta? && last.conversationId == c then last.text else "")
  }

  function ThinkingAfterAll(buffers: map<string, string>, msgs: seq<ServerMessage>): map<string, string>
    decreases |msgs|
  {
    if msgs == [] then buffers else ThinkingAfter(ThinkingAfterAll(buffers, msgs[..|msgs| - 1]), msgs[|msgs| - 1])
  }

  /** Between two resets, a conversation's thinking buffer grows by exactly the text of its
      own thinking deltas, in order; text deltas and other conversations do not touch it. */
  lemma {:induction false} ThinkingIsDeltasSinceReset(buffers: map<string, string>, msgs: seq<ServerMessage>, c: string)
    requires forall i :: 0 <= i < |msgs| ==> !Resets(msgs[i], c)
    ensures Buffered(ThinkingAfterAll(buffers, msgs), c) == Buffered(buffers, c) + ThinkingDeltaText(msgs, c)
    decreases |msgs|
  {
    if msgs != [] {
      var init := msgs[..|msgs| - 1];
      var last := msgs[|msgs| - 1];
      ThinkingIsDeltasSinceReset(buffers, init, c);
      var mid := ThinkingAfterAll(buffers, init);
      assert ThinkingAfterAll(buffers, msgs) == ThinkingAfter(mid, last);
      assert ThinkingDeltaText(msgs, c)
          == ThinkingDeltaText(init, c) + (if last.ThinkingDelta? && last.conversationId == c then last.text else "");
      assert !Resets(last, c);
    }
  }

  /** After a reset of `c`, the thinking buffer holds the thinking deltas that came after it. */
  lemma {:induction false} ThinkingAfterReset(buffers: map<string, string>, before: seq<ServerMessage>,
                                              reset: ServerMessage, after: seq<ServerMessage>, c: string)
    requires Resets(reset, c)
    requires forall i :: 0 <= i < |after| ==> !Resets(after[i], c)
    ensures Buffered(ThinkingAfterAll(buffers, before + [reset] + after), c) == ThinkingDeltaText(after, c)
  {
    var mid := ThinkingAfterAll(buffers, before + [reset]);
    assert (before + [reset])[..|before|] == before;
    assert Buffered(mid, c) == "";
    ThinkingAfterAllAppend(buffers, before + [reset], after);
    ThinkingIsDeltasSinceReset(mid, after, c);
  }

  lemma {:induction false} ThinkingAfterAllAppend(buffers: map<string, string>, xs: seq<ServerMessage>, ys: seq<ServerMessage>)
    ensures ThinkingAfterAll(buffers, xs + ys) == ThinkingAfterAll(ThinkingAfterAll(buffers, xs), ys)
    decreases |ys|
  {
    if ys != [] {
      assert (xs + ys)[..|xs + ys| - 1] == xs + ys[..|ys| - 1];
      ThinkingAfterAllAppend(buffers, xs, ys[..|ys| - 1]);
    } else {
      assert xs + ys == xs;
    }
  }

  /** The hook's state: the per-conversation lists, the status line, the active query and the
      two buffers kept in refs. */
  class ChatHook {
    var messagesByConv: Conversations
    var status: Option<string>
    var activeQuery: Option<string>
    var pendingText: map<string, string>
    var pendingThinking: map<string, string>

    constructor ()
      ensures messagesByConv == map[] && status == None && activeQuery == None
      ensures pendingText == map[] && pendingThinking == map[]
    {
      messagesByConv := map[];
      status := None;
      activeQuery := None;
      pendingText := map[];
      pendingThinking := map[];
    }

    /** `addUserMessage`: append the user's message, mark the query active, clear the status
        and both buffers of the conversation. */
    method AddUserMessage(c: string, content: string)
      modifies this
      ensures messagesByConv == old(messagesByConv)[c := Messages(old(messagesByConv), c) + [ChatMessageItem(User, content, false, None, None)]]
      ensures activeQuery == Some(c) && status == None
      ensures pendingText == old(pendingText)[c := ""] && pendingThinking == old(pendingThinking)[c := ""]
    {
      messagesByConv := messagesByConv[c := Messages(messagesByConv, c) + [ChatMessageItem(User, content, false, None, None)]];
      activeQuery := Some(c);
      status := None;
      pendingText := pendingText[c := ""];
      pendingThinking := pendingThinking[c := ""];
    }

    /** `clearMessages`: forget the conversation's list and nothing else. */
    method ClearMessages(c: string)
      modifies this
      ensures messagesByConv == old(messagesByConv) - {c}
      ensures status == old(status) && activeQuery == old(activeQuery)
      ensures pendingText == old(pendingText) && pendingThinking == old(pendingThinking)
    {
      messagesByConv := messagesByConv - {c};
    }

    /** The state after `handleServerMessage(msg)`, relative to the state before it: both
        buffers and the lists move as the specification functions say; `status` sets the status
        line; `result` and `error` end the query and clear the status line. */
    twostate predicate Handled(msg: ServerMessage)
      reads this
    {
      && pendingText == TextAfter(old(pendingText), msg)
      && pendingThinking == ThinkingAfter(old(pendingThinking), msg)
      && messagesByConv == MessagesAfter(old(messagesByConv), msg, pendingText, pendingThinking)
      && status == (if msg.Status? then Some(msg.status)
                    else if msg.ResultMessage? || msg.Error? then None else old(status))
      && activeQuery == (if msg.ResultMessage? || msg.Error? then None else old(activeQuery))
    }

    /** `text_delta`: the conversation's buffer grows by the piece, and the pending message
        shows the whole buffer. */
    method OnTextDelta(msg: ServerMessage)
      requires msg.TextDelta?
      modifies this
      ensures Handled(msg)
    {
      var c := msg.conversationId;
      var buffer := Buffered(pendingText, c) + msg.text;
      pendingText := pendingText[c := buffer];
      messagesByConv := messagesByConv[c := WithText(Messages(messagesByConv, c), buffer)];
    }

    /** `thinking_delta`: likewise for the thinking buffer and the pending message's thinking. */
    method OnThinkingDelta(msg: ServerMessage)
      requires msg.ThinkingDelta?
      modifies this
      ensures Handled(msg)
    {
      var c := msg.conversationId;
      var buffer := Buffered(pendingThinking, c) + msg.text;
      pendingThinking := pendingThinking[c := buffer];
      messagesByConv := messagesByConv[c := WithThinking(Messages(messagesByConv, c), buffer)];
    }

    /** `tool_use_start`: a running card joins the pending message. */
    method OnToolUseStart(msg: ServerMessage)
      requires msg.ToolUseStart?
      modifies this
      ensures Handled(msg)
    {
      var c := msg.conversationId;
      var block := RunningToolBlock(msg.toolUseId, msg.toolName, msg.input);
      messagesByConv := messagesByConv[c := WithToolStart(Messages(messagesByConv, c), block)];
    }

    /** `tool_use_result`: the matching card is settled. */
    method OnToolUseResult(msg: ServerMessage)
      requires msg.ToolUseResult?
      modifies this
      ensures Handled(msg)
    {
      var c := msg.conversationId;
      var updated := ToolUseResultUpdate(Messages(messagesByConv, c), msg.toolUseId, msg.result, msg.isError);
      messagesByConv := messagesByConv[c := updated];
    }

    /** `assistant_message`: both buffers are emptied and the pending message finalised. */
    method OnAssistantMessage(msg: ServerMessage)
      requires msg.AssistantMessage?
      modifies this
      ensures Handled(msg)
    {
      var c := msg.conversationId;
      pendingText := pendingText[c := ""];
      pendingThinking := pendingThinking[c := ""];
      messagesByConv := messagesByConv[c := Finalize(Messages(messagesByConv, c), msg.content, msg.contentBlocks)];
    }

    /** `result`: the query is over; the status line and both buffers are cleared. */
    method OnResult(msg: ServerMessage)
      requires msg.ResultMessage?
      modifies this
      ensures Handled(msg)
    {
      var c := msg.conversationId;
      activeQuery := None;
      status := None;
      pendingText := pendingText[c := ""];
      pendingThinking := pendingThinking[c := ""];
    }

    /** `error`: as `result`, and the error is appended to the conversation as an assistant
        message. */
    method OnError(msg: ServerMessage)
      requires msg.Error?
      modifies this
      ensures Handled(msg)
    {
      var c := msg.conversationId;
      activeQuery := None;
      status := None;
      pendingText := pendingText[c := ""];
      pendingThinking := pendingThinking[c := ""];
      messagesByConv := messagesByConv[c := Messages(messagesByConv, c) + [ErrorItem(msg.message)]];
    }

    /** `handleServerMessage`: dispatch on the message type; `status` sets the status line and
        every other type leaves the state as it was. */
    method HandleServerMessage(msg: ServerMessage)
      modifies this
      ensures pendingText == TextAfter(old(pendingText), msg)
      ensures pendingThinking == ThinkingAfter(old(pendingThinking), msg)
      ensures messagesByConv == MessagesAfter(old(messagesByConv), msg, pendingText, pendingThinking)
      ensures status == (if msg.Status? then Some(msg.status)
                         else if msg.ResultMessage? || msg.Error? then None else old(status))
      ensures activeQuery == (if msg.ResultMessage? || msg.Error? then None else old(activeQuery))
    {
      if msg.TextDelta? {
        OnTextDelta(msg);
      } else if msg.ThinkingDelta? {
        OnThinkingDelta(msg);
      } else if msg.ToolUseStart? {
        OnToolUseStart(msg);
      } else if msg.ToolUseResult? {
        OnToolUseResult(msg);
      } else if msg.AssistantMessage? {
        OnAssistantMessage(msg);
      } else if msg.Status? {
        status := Some(msg.status);
      } else if msg.ResultMessage? {
        OnResult(msg);
      } else if msg.Error? {
        OnError(msg);
      }
    }
  }
}

/** The event translator of src/sdk/manager.ts: the raw messages the agent SDK yields, and the
    per-query bookkeeping (`thinkingAccumulator`, `inputJsonAccumulators`, `blockTypes`,
    `blockStarts`, `pendingToolUses`) that `startQuery` updates while it turns them into
    outbound messages. */
module Translator {
  import opened Values
  import opened Text
  import opened Protocol
  import opened OrderedMap

  datatype BlockType = ThinkingType | ToolUseType | TextType

  /** The value `pendingToolUses` keeps per tool-use id. */
  datatype PendingTool = PendingTool(name: string, input: Json)

  /** The `content_block` of a tool_use `content_block_start`; its id and name may be missing. */
  datatype ToolStart = ToolStart(id: Option<string>, name: Option<string>)

  datatype StartBlock =
    | StartThinking
    | StartToolUse(tool: ToolStart)
    | StartText
    | StartOther

  datatype Delta =
    | TextPiece(text: string)
    | ThinkingPiece(thinking: string)
    | InputJsonPiece(partialJson: string)
    | OtherDelta

  datatype StreamEvent =
    | ContentBlockStart(index: nat, block: StartBlock)
    | ContentBlockDelta(index: nat, delta: Delta)
    | ContentBlockStop(index: nat)
    | OtherStreamEvent

  /** A block of a completed assistant turn. */
  datatype SdkBlock =
    | SdkText(text: string)
    | SdkThinking(thinking: Option<string>)
    | SdkToolUse(id: string, name: string, input: Json)
    | SdkOtherBlock

  /** `msg.message.content`: an array of blocks, a string, or anything else. */
  datatype AssistantContent =
    | ContentArray(blocks: seq<SdkBlock>)
    | ContentString(text: string)
    | ContentOther

  datatype SdkBody =
    | StreamMessage(event: StreamEvent)
    | AssistantTurn(content: AssistantContent)
    | ToolProgress(toolUseId: Option<string>, toolName: string)
    | ToolUseSummary(summary: string, precedingToolUseIds: Option<seq<string>>)
    | FinalResult(subtype: string, errors: Option<seq<string>>)
    | OtherSdkMessage

  /** One message of the SDK stream; any of them may carry a session id. */
  datatype SdkMessage = SdkMessage(sessionId: Option<string>, body: SdkBody)

  const CompletedText: string := "Completed"

  // ---------------------------------------------------------------------------------------
  // Pure pieces of the translation

  /** The input of a finished tool_use block: the accumulated JSON text, "{}" when there is none
      (or it is empty), parsed; text that does not parse is kept as `{_raw: text}`. */
  function ToolInput(accumulated: Option<string>, parse: string -> Option<Json>): (input: Json)
    ensures var text := if Truthy(accumulated) then accumulated.value else "{}";
      input == (if parse(text).Some? then parse(text).value else JObject(map["_raw" := JString(text)]))
  {
    var text := if Truthy(accumulated) then accumulated.value else "{}";
    match parse(text)
    case Some(v) => v
    case None => JObject(map["_raw" := JString(text)])
  }

  /** `block?.id || "tool-<idx>"`: never empty, and the fallback names the stream index. */
  function ToolUseIdOf(start: Option<ToolStart>, idx: nat): (id: string)
    ensures id != ""
    ensures start.Some? && Truthy(start.value.id) ==> id == start.value.id.value
    ensures !(start.Some? && Truthy(start.value.id)) ==> id == "tool-" + NatToString(idx)
  {
    if start.Some? && Truthy(start.value.id) then start.value.id.value else "tool-" + NatToString(idx)
  }

  /** Two blocks without an id of their own at different indexes get different identifiers. */
  lemma FallbackIdsDiffer(i: nat, j: nat)
    requires i != j
    ensures ToolUseIdOf(None, i) != ToolUseIdOf(None, j)
  {
    var a, b := ToolUseIdOf(None, i), ToolUseIdOf(None, j);
    if a == b {
      assert a[5..] == NatToString(i) && b[5..] == NatToString(j);
      NatToStringInjective(i, j);
    }
  }

  /** `block?.name || "unknown"` */
  function ToolNameOf(start: Option<ToolStart>): (name: string)
    ensures name != ""
    ensures start.Some? && Truthy(start.value.name) ==> name == start.value.name.value
  {
    if start.Some? && Truthy(start.value.name) then start.value.name.value else "unknown"
  }

  /** `Using <tool>...` */
  function UsingStatus(toolName: string): string {
    "Using " + toolName + "..."
  }

  /** The `error` field of the final `result` message: none on success, otherwise the SDK's
      errors joined with ", " when it supplied a list. */
  function ResultError(success: bool, errors: Option<seq<string>>): (e: Option<string>)
    ensures success ==> e == None
    ensures !success && errors.Some? ==> e == Some(Join(errors.value, ", "))
    ensures errors.None? ==> e == None
  {
    if success then None
    else match errors
      case Some(es) => Some(Join(es, ", "))
      case None => None
  }

  /** One `tool_use_result` per listed id, in order, all with the same text and not errors. */
  function ResultsFor(conversationId: string, ids: seq<string>, text: string): (out: seq<ServerMessage>)
    ensures |out| == |ids|
    ensures forall k :: 0 <= k < |ids| ==> out[k] == ToolUseResult(conversationId, ids[k], text, false)
  {
    seq(|ids|, k requires 0 <= k < |ids| => ToolUseResult(conversationId, ids[k], text, false))
  }

  /** The results for one more listed id follow those for the ids before it. */
  lemma ResultsForSnoc(conversationId: string, list: seq<string>, i: nat, text: string)
    requires i < |list|
    ensures ResultsFor(conversationId, list[..i + 1], text)
         == ResultsFor(conversationId, list[..i], text) + [ToolUseResult(conversationId, list[i], text, false)]
  {
    var a := ResultsFor(conversationId, list[..i + 1], text);
    var b := ResultsFor(conversationId, list[..i], text) + [ToolUseResult(conversationId, list[i], text, false)];
    assert |a| == |b|;
    forall k | 0 <= k < |a| ensures a[k] == b[k] {
    }
  }

  /** The loop of `tool_use_summary` over `preceding_tool_use_ids`: each listed id gets a
      successful result carrying the summary, in list order, and is deleted from the table. */
  method SettleListed(table: Table<PendingTool>, conversationId: string, list: seq<string>, summary: string)
    returns (rest: Table<PendingTool>, results: seq<ServerMessage>)
    requires WellFormed(table)
    ensures rest == DeleteAll(table, list)
    ensures results == ResultsFor(conversationId, list, summary)
  {
    rest := table;
    results := [];
    var i := 0;
    while i < |list|
      invariant 0 <= i <= |list|
      invariant rest == DeleteAll(table, list[..i])
      invariant results == ResultsFor(conversationId, list[..i], summary)
    {
      assert list[..i + 1][..i] == list[..i];
      ResultsForSnoc(conversationId, list, i, summary);
      results := results + [ToolUseResult(conversationId, list[i], summary, false)];
      rest := Delete(rest, list[i]);
      i := i + 1;
    }
    assert list[..i] == list;
  }

  /** The text and the content blocks an assistant turn's block list flattens to, and the tool
      table after registering its tool_use blocks; block by block, left to right. */
  datatype Flat = Flat(text: string, blocks: seq<ContentBlock>, table: Table<PendingTool>)

  function FlattenStep(f: Flat, b: SdkBlock): Flat
    requires WellFormed(f.table)
  {
    match b
    case SdkText(t) => Flat(f.text + t, f.blocks + [TextBlock(t)], f.table)
    case SdkThinking(th) =>
      Flat(f.text, f.blocks + [ThinkingBlock(if Truthy(th) then th.value else "")], f.table)
    case SdkToolUse(id, name, input) =>
      Flat(f.text, f.blocks + [RunningToolBlock(id, name, input)],
           if Has(f.table, id) then f.table else Set(f.table, id, PendingTool(name, input)))
    case SdkOtherBlock => f
  }

  function Flatten(bs: seq<SdkBlock>, t: Table<PendingTool>): (f: Flat)
    requires WellFormed(t)
    ensures WellFormed(f.table)
    decreases |bs|
  {
    if bs == [] then Flat("", [], t) else FlattenStep(Flatten(bs[..|bs| - 1], t), bs[|bs| - 1])
  }

  /** Registering a turn's tool_use blocks tracks every one of their ids and leaves the entries
      that were already tracked as they were. */
  lemma {:induction false} FlattenTracks(bs: seq<SdkBlock>, t: Table<PendingTool>)
    requires WellFormed(t)
    ensures forall k :: Has(t, k) ==> Get(Flatten(bs, t).table, k) == Get(t, k)
    ensures forall b :: b in bs && b.SdkToolUse? ==> Has(Flatten(bs, t).table, b.id)
    decreases |bs|
  {
    if bs != [] {
      var prefix := bs[..|bs| - 1];
      var last := bs[|bs| - 1];
      FlattenTracks(prefix, t);
      var before := Flatten(prefix, t).table;
      var after := Flatten(bs, t).table;
      StepTracks(Flatten(prefix, t), last);
      forall b | b in bs && b.SdkToolUse? ensures Has(after, b.id) {
        if b != last {
          assert b in prefix;
        }
      }
    }
  }

  /** One block keeps every tracked entry and, when it is a tool_use, tracks its id. */
  lemma StepTracks(f: Flat, b: SdkBlock)
    requires WellFormed(f.table)
    ensures forall k :: Has(f.table, k) ==> Get(FlattenStep(f, b).table, k) == Get(f.table, k)
    ensures b.SdkToolUse? ==> Has(FlattenStep(f, b).table, b.id)
  {
    if b.SdkToolUse? && !Has(f.table, b.id) {
      SetLookup(f.table, b.id, PendingTool(b.name, b.input));
    }
  }

  /** What a completed assistant turn contributes: the flattened block array, a plain string as
      one text block, or nothing. */
  function AssistantOutput(content: AssistantContent, t: Table<PendingTool>): (f: Flat)
    requires WellFormed(t)
    ensures WellFormed(f.table)
    ensures !content.ContentArray? ==> f.table == t
    ensures content.ContentString? ==> f.text == content.text && f.blocks == [TextBlock(content.text)]
    ensures content.ContentOther? ==> f.text == "" && f.blocks == []
  {
    match content
    case ContentArray(bs) => Flatten(bs, t)
    case ContentString(s) => Flat(s, [TextBlock(s)], t)
    case ContentOther => Flat("", [], t)
  }

  /** Text blocks concatenated, the number of recognised blocks, and every tool card "running". */
  function TextOf(bs: seq<SdkBlock>): string
    decreases |bs|
  {
    if bs == [] then ""
    else TextOf(bs[..|bs| - 1]) + (if bs[|bs| - 1].SdkText? then bs[|bs| - 1].text else "")
  }

  function Recognised(bs: seq<SdkBlock>): nat
    decreases |bs|
  {
    if bs == [] then 0 else Recognised(bs[..|bs| - 1]) + (if bs[|bs| - 1].SdkOtherBlock? then 0 else 1)
  }

  lemma {:induction false} FlattenShape(bs: seq<SdkBlock>, t: Table<PendingTool>)
    requires WellFormed(t)
    ensures Flatten(bs, t).text == TextOf(bs)
    ensures |Flatten(bs, t).blocks| == Recognised(bs)
    ensures forall b :: b in Flatten(bs, t).blocks && b.ToolUseBlock? ==> b.status == Running
    decreases |bs|
  {
    if bs != [] {
      FlattenShape(bs[..|bs| - 1], t);
    }
  }

  // ---------------------------------------------------------------------------------------
  // One SDK message, as a value

  /** The per-query bookkeeping of `startQuery`, as a value. */
  datatype RunState = RunState(
    sessionCaptured: bool,
    thinking: string,
    accumulators: map<nat, string>,
    blockTypes: map<nat, BlockType>,
    blockStarts: map<nat, ToolStart>,
    pending: Table<PendingTool>)

  /** The bookkeeping when a query starts. */
  const FreshRun: RunState := RunState(false, "", map[], map[], map[], [])

  /** The bookkeeping after one SDK message, and what it sends. */
  datatype Step = Step(state: RunState, out: seq<ServerMessage>)

  /** The `stream_event` case of the SDK switch for conversation `c`. */
  function StreamStep(c: string, s: RunState, event: StreamEvent, parse: string -> Option<Json>): (r: Step)
    requires WellFormed(s.pending)
    ensures WellFormed(r.state.pending)
    ensures r.state.sessionCaptured == s.sessionCaptured
    ensures forall i :: 0 <= i < |r.out| ==> About(r.out[i], c)
  {
    match event
    case ContentBlockStart(idx, block) =>
      (match block
       case StartThinking => Step(s.(blockTypes := s.blockTypes[idx := ThinkingType], thinking := ""), [])
       case StartToolUse(tool) =>
         Step(s.(blockTypes := s.blockTypes[idx := ToolUseType], blockStarts := s.blockStarts[idx := tool],
                 accumulators := s.accumulators[idx := ""]), [])
       case StartText => Step(s.(blockTypes := s.blockTypes[idx := TextType]), [])
       case StartOther => Step(s, []))
    case ContentBlockDelta(idx, delta) =>
      (match delta
       case TextPiece(text) => Step(s, [TextDelta(c, text)])
       case ThinkingPiece(thinking) => Step(s.(thinking := s.thinking + thinking), [ThinkingDelta(c, thinking)])
       case InputJsonPiece(partial) =>
         var prev := if idx in s.accumulators then s.accumulators[idx] else "";
         Step(s.(accumulators := s.accumulators[idx := prev + partial]), [])
       case OtherDelta => Step(s, []))
    case ContentBlockStop(idx) =>
      if idx in s.blockTypes && s.blockTypes[idx] == ToolUseType then
        var start := if idx in s.blockStarts then Some(s.blockStarts[idx]) else None;
        var acc := if idx in s.accumulators then Some(s.accumulators[idx]) else None;
        var id := ToolUseIdOf(start, idx);
        var name := ToolNameOf(start);
        var input := ToolInput(acc, parse);
        Step(s.(blockTypes := s.blockTypes - {idx}, blockStarts := s.blockStarts - {idx},
                accumulators := s.accumulators - {idx}, pending := Set(s.pending, id, PendingTool(name, input))),
             [ToolUseStart(c, id, name, input)])
      else
        Step(s.(blockTypes := s.blockTypes - {idx}), [])
    case OtherStreamEvent => Step(s, [])
  }

  /** The `assistant_message` a completed turn sends. */
  function TurnMessage(c: string, f: Flat): ServerMessage {
    AssistantMessage(c, f.text, if |f.blocks| > 0 then Some(f.blocks) else None)
  }

  /** The SDK switch of `startQuery` for conversation `c`: the bookkeeping after `body` and the
      messages it sends, in order. Every message is addressed to `c`, and the session flag is
      left to the capture that precedes the switch. */
  function Translate(c: string, s: RunState, body: SdkBody, parse: string -> Option<Json>): (r: Step)
    requires WellFormed(s.pending)
    ensures WellFormed(r.state.pending)
    ensures r.state.sessionCaptured == s.sessionCaptured
    ensures forall i :: 0 <= i < |r.out| ==> About(r.out[i], c)
  {
    match body
    case StreamMessage(event) => StreamStep(c, s, event, parse)
    case AssistantTurn(content) =>
      var f := AssistantOutput(content, s.pending);
      Step(s.(pending := f.table, thinking := ""), [TurnMessage(c, f)])
    case ToolProgress(toolUseId, toolName) =>
      if Truthy(toolUseId) && !Has(s.pending, toolUseId.value) then
        Step(s.(pending := Set(s.pending, toolUseId.value, PendingTool(toolName, JNull))),
             [ToolUseStart(c, toolUseId.value, toolName, JNull), Status(c, UsingStatus(toolName))])
      else
        Step(s, [Status(c, UsingStatus(toolName))])
    case ToolUseSummary(summary, ids) => SummaryStep(c, s, summary, ids)
    case FinalResult(subtype, errors) => ResultStep(c, s, subtype, errors)
    case OtherSdkMessage => Step(s, [])
  }

  /** The `tool_use_summary` case: the summary as a status, then the settled ids. */
  function SummaryStep(c: string, s: RunState, summary: string, ids: Option<seq<string>>): (r: Step)
    requires WellFormed(s.pending)
    ensures WellFormed(r.state.pending)
    ensures r.state == s.(pending := r.state.pending)
    ensures forall i :: 0 <= i < |r.out| ==> About(r.out[i], c)
  {
    match ids
    case Some(list) =>
      Step(s.(pending := DeleteAll(s.pending, list)), [Status(c, summary)] + ResultsFor(c, list, summary))
    case None =>
      var last := LastKey(s.pending);
      if Truthy(last) then
        Step(s.(pending := Delete(s.pending, last.value)),
             [Status(c, summary), ToolUseResult(c, last.value, summary, false)])
      else
        Step(s, [Status(c, summary)])
  }

  /** The `result` case: every pending tool completed, then the result. */
  function ResultStep(c: string, s: RunState, subtype: string, errors: Option<seq<string>>): (r: Step)
    ensures r.state == s.(pending := [])
    ensures forall i :: 0 <= i < |r.out| ==> About(r.out[i], c)
  {
    Step(s.(pending := []),
         ResultsFor(c, Ids(s.pending), CompletedText)
         + [ResultMessage(c, subtype == "success", ResultError(subtype == "success", errors))])
  }

  // ---------------------------------------------------------------------------------------
  // The per-query state

  class QueryRun {
    const conversationId: string
    var sessionCaptured: bool
    var thinkingAccumulator: string
    var inputJsonAccumulators: map<nat, string>
    var blockTypes: map<nat, BlockType>
    var blockStarts: map<nat, ToolStart>
    var pendingToolUses: Table<PendingTool>

    ghost predicate Valid()
      reads this
    {
      WellFormed(pendingToolUses)
    }

    /** The bookkeeping as a value. */
    function State(): RunState
      reads this
    {
      RunState(sessionCaptured, thinkingAccumulator, inputJsonAccumulators, blockTypes, blockStarts, pendingToolUses)
    }

    constructor (conversationId: string)
      ensures Valid() && this.conversationId == conversationId && State() == FreshRun
      ensures !sessionCaptured && thinkingAccumulator == ""
      ensures inputJsonAccumulators == map[] && blockTypes == map[] && blockStarts == map[]
      ensures pendingToolUses == []
    {
      this.conversationId := conversationId;
      sessionCaptured := false;
      thinkingAccumulator := "";
      inputJsonAccumulators := map[];
      blockTypes := map[];
      blockStarts := map[];
      pendingToolUses := [];
    }

    /** `content_block_start`: record the block's type at its index; a thinking block resets the
        thinking text, a tool_use block opens an empty JSON accumulator. */
    method OnBlockStart(idx: nat, block: StartBlock)
      requires Valid()
      modifies this
      ensures Valid()
      ensures sessionCaptured == old(sessionCaptured) && pendingToolUses == old(pendingToolUses)
      ensures block.StartThinking? ==>
        && blockTypes == old(blockTypes)[idx := ThinkingType] && thinkingAccumulator == ""
        && inputJsonAccumulators == old(inputJsonAccumulators) && blockStarts == old(blockStarts)
      ensures block.StartToolUse? ==>
        && blockTypes == old(blockTypes)[idx := ToolUseType]
        && blockStarts == old(blockStarts)[idx := block.tool]
        && inputJsonAccumulators == old(inputJsonAccumulators)[idx := ""]
        && thinkingAccumulator == old(thinkingAccumulator)
      ensures block.StartText? ==>
        && blockTypes == old(blockTypes)[idx := TextType]
        && inputJsonAccumulators == old(inputJsonAccumulators) && blockStarts == old(blockStarts)
        && thinkingAccumulator == old(thinkingAccumulator)
      ensures block.StartOther? ==>
        && blockTypes == old(blockTypes) && thinkingAccumulator == old(thinkingAccumulator)
        && inputJsonAccumulators == old(inputJsonAccumulators) && blockStarts == old(blockStarts)
    {
      match block {
        case StartThinking =>
          blockTypes := blockTypes[idx := ThinkingType];
          thinkingAccumulator := "";
        case StartToolUse(tool) =>
          blockTypes := blockTypes[idx := ToolUseType];
          blockStarts := blockStarts[idx := tool];
          inputJsonAccumulators := inputJsonAccumulators[idx := ""];
        case StartText =>
          blockTypes := blockTypes[idx := TextType];
        case StartOther =>
      }
    }

    /** `content_block_delta`: text and thinking pieces go out at once (thinking also accumulates);
        JSON pieces of a tool input accumulate at their index and are not sent. */
    method OnBlockDelta(idx: nat, delta: Delta) returns (out: seq<ServerMessage>)
      requires Valid()
      modifies this
      ensures Valid()
      ensures sessionCaptured == old(sessionCaptured) && pendingToolUses == old(pendingToolUses)
      ensures blockTypes == old(blockTypes) && blockStarts == old(blockStarts)
      ensures delta.TextPiece? ==>
        && out == [TextDelta(conversationId, delta.text)]
        && thinkingAccumulator == old(thinkingAccumulator)
        && inputJsonAccumulators == old(inputJsonAccumulators)
      ensures delta.ThinkingPiece? ==>
        && out == [ThinkingDelta(conversationId, delta.thinking)]
        && thinkingAccumulator == old(thinkingAccumulator) + delta.thinking
        && inputJsonAccumulators == old(inputJsonAccumulators)
      ensures delta.InputJsonPiece? ==>
        && out == []
        && thinkingAccumulator == old(thinkingAccumulator)
        && inputJsonAccumulators == old(inputJsonAccumulators)[idx :=
             (if idx in old(inputJsonAccumulators) then old(inputJsonAccumulators)[idx] else "") + delta.partialJson]
      ensures delta.OtherDelta? ==>
        && out == [] && thinkingAccumulator == old(thinkingAccumulator)
        && inputJsonAccumulators == old(inputJsonAccumulators)
    {
      out := [];
      match delta {
        case TextPiece(text) =>
          out := [TextDelta(conversationId, text)];
        case ThinkingPiece(thinking) =>
          thinkingAccumulator := thinkingAccumulator + thinking;
          out := [ThinkingDelta(conversationId, thinking)];
        case InputJsonPiece(partial) =>
          var prev := if idx in inputJsonAccumulators then inputJsonAccumulators[idx] else "";
          inputJsonAccumulators := inputJsonAccumulators[idx := prev + partial];
        case OtherDelta =>
      }
    }

    /** `content_block_stop`: a tool_use index yields exactly one `tool_use_start` (for a new id
        and for one a progress event already opened alike), records the tool with its parsed
        input, and forgets the index's JSON text and start block; the index's type goes in
        every case. */
    method OnBlockStop(idx: nat, parse: string -> Option<Json>) returns (out: seq<ServerMessage>)
      requires Valid()
      modifies this
      ensures Valid()
      ensures sessionCaptured == old(sessionCaptured) && thinkingAccumulator == old(thinkingAccumulator)
      ensures blockTypes == old(blockTypes) - {idx}
      ensures idx in old(blockTypes) && old(blockTypes)[idx] == ToolUseType ==>
        var start := if idx in old(blockStarts) then Some(old(blockStarts)[idx]) else None;
        var acc := if idx in old(inputJsonAccumulators) then Some(old(inputJsonAccumulators)[idx]) else None;
        var id := ToolUseIdOf(start, idx);
        var name := ToolNameOf(start);
        var input := ToolInput(acc, parse);
        && out == [ToolUseStart(conversationId, id, name, input)]
        && pendingToolUses == Set(old(pendingToolUses), id, PendingTool(name, input))
        && inputJsonAccumulators == old(inputJsonAccumulators) - {idx}
        && blockStarts == old(blockStarts) - {idx}
      ensures !(idx in old(blockTypes) && old(blockTypes)[idx] == ToolUseType) ==>
        && out == [] && pendingToolUses == old(pendingToolUses)
        && inputJsonAccumulators == old(inputJsonAccumulators) && blockStarts == old(blockStarts)
    {
      out := [];
      if idx in blockTypes && blockTypes[idx] == ToolUseType {
        var start := if idx in blockStarts then Some(blockStarts[idx]) else None;
        var acc := if idx in inputJsonAccumulators then Some(inputJsonAccumulators[idx]) else None;
        var input := ToolInput(acc, parse);
        var toolUseId := ToolUseIdOf(start, idx);
        var toolName := ToolNameOf(start);
        if !Has(pendingToolUses, toolUseId) {
          pendingToolUses := Set(pendingToolUses, toolUseId, PendingTool(toolName, input));
          out := [ToolUseStart(conversationId, toolUseId, toolName, input)];
        } else {
          pendingToolUses := Set(pendingToolUses, toolUseId, PendingTool(toolName, input));
          out := [ToolUseStart(conversationId, toolUseId, toolName, input)];
        }
        inputJsonAccumulators := inputJsonAccumulators - {idx};
        blockStarts := blockStarts - {idx};
      }
      blockTypes := blockTypes - {idx};
    }

    /** A completed assistant turn: flatten its content into text and content blocks, register
        each tool_use id not yet tracked, and reset the thinking text. */
    method OnAssistant(content: AssistantContent) returns (text: string, blocks: seq<ContentBlock>)
      requires Valid()
      modifies this
      ensures Valid()
      ensures sessionCaptured == old(sessionCaptured) && thinkingAccumulator == ""
      ensures blockTypes == old(blockTypes) && blockStarts == old(blockStarts)
      ensures inputJsonAccumulators == old(inputJsonAccumulators)
      ensures Flat(text, blocks, pendingToolUses) == AssistantOutput(content, old(pendingToolUses))
    {
      text, blocks := "", [];
      match content {
        case ContentArray(bs) =>
          var table := pendingToolUses;
          var i := 0;
          while i < |bs|
            invariant 0 <= i <= |bs|
            invariant WellFormed(table)
            invariant Flatten(bs[..i], pendingToolUses) == Flat(text, blocks, table)
          {
            assert bs[..i + 1][..i] == bs[..i];
            assert Flatten(bs[..i + 1], pendingToolUses) == FlattenStep(Flat(text, blocks, table), bs[i]);
            match bs[i] {
              case SdkText(t) =>
                text := text + t;
                blocks := blocks + [TextBlock(t)];
              case SdkThinking(th) =>
                blocks := blocks + [ThinkingBlock(if Truthy(th) then th.value else "")];
              case SdkToolUse(id, name, input) =>
                blocks := blocks + [RunningToolBlock(id, name, input)];
                if !Has(table, id) {
                  table := Set(table, id, PendingTool(name, input));
                }
              case SdkOtherBlock =>
            }
            i := i + 1;
          }
          assert bs[..i] == bs;
          pendingToolUses := table;
        case ContentString(s) =>
          text := s;
          blocks := [TextBlock(s)];
        case ContentOther =>
      }
      thinkingAccumulator := "";
    }

    /** `tool_progress`: a truthy id not yet tracked opens a tool card with a null input; every
        progress event reports `Using <tool>...`. */
    method OnToolProgress(toolUseId: Option<string>, toolName: string) returns (out: seq<ServerMessage>)
      requires Valid()
      modifies this
      ensures Valid()
      ensures sessionCaptured == old(sessionCaptured) && thinkingAccumulator == old(thinkingAccumulator)
      ensures blockTypes == old(blockTypes) && blockStarts == old(blockStarts)
      ensures inputJsonAccumulators == old(inputJsonAccumulators)
      ensures Truthy(toolUseId) && !Has(old(pendingToolUses), toolUseId.value) ==>
        && out == [ToolUseStart(conversationId, toolUseId.value, toolName, JNull), Status(conversationId, UsingStatus(toolName))]
        && pendingToolUses == Set(old(pendingToolUses), toolUseId.value, PendingTool(toolName, JNull))
      ensures !(Truthy(toolUseId) && !Has(old(pendingToolUses), toolUseId.value)) ==>
        && out == [Status(conversationId, UsingStatus(toolName))]
        && pendingToolUses == old(pendingToolUses)
    {
      out := [];
      if Truthy(toolUseId) && !Has(pendingToolUses, toolUseId.value) {
        pendingToolUses := Set(pendingToolUses, toolUseId.value, PendingTool(toolName, JNull));
        out := [ToolUseStart(conversationId, toolUseId.value, toolName, JNull)];
      }
      out := out + [Status(conversationId, UsingStatus(toolName))];
    }

    /** `tool_use_summary`: the summary goes out as a status first; then each listed id gets a
        successful `tool_use_result` and leaves the table; without a list only the most recently
        inserted pending id (when there is one and it is truthy) is resolved. */
    method OnToolUseSummary(summary: string, ids: Option<seq<string>>) returns (out: seq<ServerMessage>)
      requires Valid()
      modifies this
      ensures Valid()
      ensures sessionCaptured == old(sessionCaptured) && thinkingAccumulator == old(thinkingAccumulator)
      ensures blockTypes == old(blockTypes) && blockStarts == old(blockStarts)
      ensures inputJsonAccumulators == old(inputJsonAccumulators)
      ensures |out| >= 1 && out[0] == Status(conversationId, summary)
      ensures ids.Some? ==>
        && out == [Status(conversationId, summary)] + ResultsFor(conversationId, ids.value, summary)
        && pendingToolUses == DeleteAll(old(pendingToolUses), ids.value)
      ensures ids.None? ==>
        var last := LastKey(old(pendingToolUses));
        if Truthy(last) then
          && out == [Status(conversationId, summary), ToolUseResult(conversationId, last.value, summary, false)]
          && pendingToolUses == Delete(old(pendingToolUses), last.value)
        else
          out == [Status(conversationId, summary)] && pendingToolUses == old(pendingToolUses)
    {
      out := [Status(conversationId, summary)];
      match ids {
        case Some(list) =>
          var rest, results := SettleListed(pendingToolUses, conversationId, list, summary);
          out := out + results;
          pendingToolUses := rest;
        case None =>
          var lastKey := LastKey(pendingToolUses);
          if Truthy(lastKey) {
            out := out + [ToolUseResult(conversationId, lastKey.value, summary, false)];
            pendingToolUses := Delete(pendingToolUses, lastKey.value);
          }
      }
    }

    /** `result`: every tool still pending is completed, in insertion order, before the single
        `result` message; the table is empty afterwards. */
    method OnResult(subtype: string, errors: Option<seq<string>>) returns (out: seq<ServerMessage>)
      requires Valid()
      modifies this
      ensures Valid()
      ensures sessionCaptured == old(sessionCaptured) && thinkingAccumulator == old(thinkingAccumulator)
      ensures blockTypes == old(blockTypes) && blockStarts == old(blockStarts)
      ensures inputJsonAccumulators == old(inputJsonAccumulators)
      ensures pendingToolUses == []
      ensures out == ResultsFor(conversationId, Ids(old(pendingToolUses)), CompletedText)
                     + [ResultMessage(conversationId, subtype == "success", ResultError(subtype == "success", errors))]
    {
      out := [];
      var i := 0;
      while i < |pendingToolUses|
        invariant 0 <= i <= |pendingToolUses|
        invariant pendingToolUses == old(pendingToolUses)
        invariant out == ResultsFor(conversationId, Ids(pendingToolUses)[..i], CompletedText)
      {
        out := out + [ToolUseResult(conversationId, pendingToolUses[i].key, CompletedText, false)];
        i := i + 1;
      }
      assert Ids(pendingToolUses)[..i] == Ids(pendingToolUses);
      pendingToolUses := [];
      var success := subtype == "success";
      out := out + [ResultMessage(conversationId, success, ResultError(success, errors))];
    }
  }
}

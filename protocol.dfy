/** The wire vocabulary: structured content blocks (src/shared/content-blocks.ts) and the
    server-to-client messages of the socket protocol (src/ws/types.ts). */
module Protocol {
  import opened Values

  datatype ToolStatus = Running | Completed | Errored

  datatype PermissionStatus = PermissionPending | Approved | Denied

  datatype InputStatus = InputPending | Answered

  datatype QuestionOption = QuestionOption(labelText: string, description: Option<string>)

  datatype UserInputQuestion = UserInputQuestion(
    question: string,
    header: Option<string>,
    options: seq<QuestionOption>,
    multiSelect: Option<bool>)

  /** One structured unit of assistant output or of an interactive request. */
  datatype ContentBlock =
    | TextBlock(text: string)
    | ThinkingBlock(thinking: string)
    | ToolUseBlock(id: string, name: string, input: Json, status: ToolStatus,
                   result: Option<string>, progress: Option<string>)
    | PermissionRequestBlock(id: string, toolName: string, input: Json, permissionStatus: PermissionStatus)
    | UserInputBlock(id: string, questions: seq<UserInputQuestion>, inputStatus: InputStatus,
                     answers: Option<map<string, string>>)

  /** A freshly opened tool card. */
  function RunningToolBlock(id: string, name: string, input: Json): ContentBlock {
    ToolUseBlock(id, name, input, Running, None, None)
  }

  /** Server-to-client messages. The cost and duration numbers of `result` are not modelled. */
  datatype ServerMessage =
    | TextDelta(conversationId: string, text: string)
    | AssistantMessage(conversationId: string, content: string, contentBlocks: Option<seq<ContentBlock>>)
    | ResultMessage(conversationId: string, success: bool, error: Option<string>)
    | Status(conversationId: string, status: string)
    | Error(conversationId: string, message: string)
    | Archived(conversationId: string)
    | SummaryReady(conversationId: string, summary: string)
    | ThinkingDelta(conversationId: string, text: string)
    | ToolUseStart(conversationId: string, toolUseId: string, toolName: string, input: Json)
    | ToolUseResult(conversationId: string, toolUseId: string, result: string, isError: bool)
    | ToolUseProgress(conversationId: string, toolUseId: string, progress: string)
    | PermissionRequest(conversationId: string, permissionId: string, toolName: string, input: Json)
    | UserInputRequest(conversationId: string, requestId: string, questions: seq<UserInputQuestion>)
    | ActiveQueries(conversationIds: seq<string>)

  /** `m` is addressed to conversation `c`. */
  predicate About(m: ServerMessage, c: string) {
    !m.ActiveQueries? && m.conversationId == c
  }

  /** The value a suspended permission check of the agent SDK is resolved with. */
  datatype PermissionResult =
    | Allow(updatedInput: Json)
    | Deny(message: string)
}

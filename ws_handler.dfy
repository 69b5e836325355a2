/** The inbound command dispatcher of src/ws/handler.ts. One raw frame from a browser socket
    becomes the list of effects the handler performs, in order: replies sent back on the
    socket and calls into the relay. */
module WsHandler {
  import opened Values
  import opened Protocol

  const InvalidJson: string := "Invalid JSON"
  const MissingChatFields: string := "Missing conversationId or message"
  const NoActiveQuery: string := "No active query to interrupt"
  const UnknownTypePrefix: string := "Unknown message type: "

  /** The fields of a parsed client message that the handler reads; `None` is an absent field,
      and for the string fields also a non-string one. `approved` and `answers` are kept as
      the JSON values they are. A JSON primitive or array parses to a frame whose fields are
      all absent. */
  datatype ClientFrame = ClientFrame(
    kind: Option<string>,
    conversationId: Option<string>,
    message: Option<string>,
    permissionId: Option<string>,
    approved: Option<Json>,
    requestId: Option<string>,
    answers: Option<Json>)

  /** What `JSON.parse` makes of the raw text: a failure, the value `null` (on which reading
      `.type` throws), or a value whose fields can be read. */
  datatype Inbound = Unparsable | NullValue | Parsed(frame: ClientFrame)

  /** An effect of the handler. */
  datatype Action =
    | Reply(msg: ServerMessage)
    | CallStartQuery(conversationId: string, message: string)
    | CallInterruptQuery(conversationId: string)
    | CallArchive(conversationId: string)
    | CallResolvePermission(permissionId: string, approved: bool)
    | CallResolveUserInput(requestId: string, answers: Json)
    | Throws

  /** JavaScript truthiness of a JSON value. */
  predicate JsonTruthy(j: Json) {
    match j
    case JNull => false
    case JBool(b) => b
    case JNumber(n) => n != 0
    case JString(s) => s != ""
    case _ => true
  }

  /** `!!msg.x` for a field holding any JSON value: present and truthy. */
  predicate Given(field: Option<Json>) {
    field.Some? && JsonTruthy(field.value)
  }

  /** `msg.x || ""` */
  function OrEmpty(o: Option<string>): string {
    if o.Some? then o.value else ""
  }

  /** `${msg.type}` for a string or absent type. */
  function TypeText(kind: Option<string>): (t: string)
    ensures kind.Some? ==> t == kind.value
  {
    if kind.Some? then kind.value else "undefined"
  }

  predicate IsKnownKind(kind: Option<string>) {
    kind == Some("chat") || kind == Some("interrupt") || kind == Some("archive")
    || kind == Some("permission_response") || kind == Some("user_input_response")
  }

  /** The number of replies among `actions`. */
  function CountReplies(actions: seq<Action>): (n: nat)
    ensures n <= |actions|
    decreases |actions|
  {
    if actions == [] then 0
    else CountReplies(actions[..|actions| - 1]) + (if actions[|actions| - 1].Reply? then 1 else 0)
  }

  /** `handleWsMessage`. `interrupted` is what `interruptQuery` answers for the frame's
      conversation; it is read only on the interrupt path. */
  function HandleWsMessage(inbound: Inbound, interrupted: bool): (actions: seq<Action>)
    // Unparsable input: exactly one error, addressed to no conversation.
    ensures inbound.Unparsable? ==> actions == [Reply(Error("", InvalidJson))]
    // The handler throws only when the input is `null`, and then does nothing else.
    ensures Throws in actions <==> inbound.NullValue?
    ensures inbound.NullValue? ==> actions == [Throws]
    // At most one reply, and every reply is an error.
    ensures CountReplies(actions) <= 1
    ensures forall i :: 0 <= i < |actions| && actions[i].Reply? ==> actions[i].msg.Error?
    // The relay is asked to start a query exactly for a chat frame with both fields set.
    ensures (exists i :: 0 <= i < |actions| && actions[i].CallStartQuery?) <==>
      inbound.Parsed? && inbound.frame.kind == Some("chat")
      && Truthy(inbound.frame.conversationId) && Truthy(inbound.frame.message)
    ensures forall i :: 0 <= i < |actions| && actions[i].CallStartQuery? ==>
      inbound.Parsed? && Some(actions[i].conversationId) == inbound.frame.conversationId
      && Some(actions[i].message) == inbound.frame.message
    // A chat frame missing either field is answered on its conversation id, or on "" without
    // one; with both fields it makes exactly one call, starting the query.
    ensures (inbound.Parsed? && inbound.frame.kind == Some("chat")
             && !(Truthy(inbound.frame.conversationId) && Truthy(inbound.frame.message)))
      ==> actions == [Reply(Error(OrEmpty(inbound.frame.conversationId), MissingChatFields))]
    ensures (inbound.Parsed? && inbound.frame.kind == Some("chat")
             && Truthy(inbound.frame.conversationId) && Truthy(inbound.frame.message))
      ==> actions == [CallStartQuery(inbound.frame.conversationId.value, inbound.frame.message.value)]
    // An interrupt with an id always reaches the relay, and is answered on that id exactly
    // when there was no query to interrupt.
    ensures inbound.Parsed? && inbound.frame.kind == Some("interrupt") && Truthy(inbound.frame.conversationId)
      ==> actions == [CallInterruptQuery(inbound.frame.conversationId.value)]
                     + (if interrupted then [] else [Reply(Error(inbound.frame.conversationId.value, NoActiveQuery))])
    // An archive or permission answer never produces a reply.
    ensures inbound.Parsed? && (inbound.frame.kind == Some("archive") || inbound.frame.kind == Some("permission_response"))
      ==> CountReplies(actions) == 0
    // A frame without the id its type needs is ignored: no reply and no call.
    ensures (inbound.Parsed? && (inbound.frame.kind == Some("interrupt") || inbound.frame.kind == Some("archive"))
             && !Truthy(inbound.frame.conversationId)) ==> actions == []
    ensures (inbound.Parsed? && inbound.frame.kind == Some("permission_response")
             && !Truthy(inbound.frame.permissionId)) ==> actions == []
    ensures (inbound.Parsed? && inbound.frame.kind == Some("user_input_response")
             && !(Truthy(inbound.frame.requestId) && Given(inbound.frame.answers))) ==> actions == []
    // With its id, each of these frames makes exactly one call into the relay, with the
    // frame's own fields; the relay reads `approved` by its truthiness.
    ensures inbound.Parsed? && inbound.frame.kind == Some("archive") && Truthy(inbound.frame.conversationId)
      ==> actions == [CallArchive(inbound.frame.conversationId.value)]
    ensures inbound.Parsed? && inbound.frame.kind == Some("permission_response") && Truthy(inbound.frame.permissionId)
      ==> actions == [CallResolvePermission(inbound.frame.permissionId.value, Given(inbound.frame.approved))]
    ensures (inbound.Parsed? && inbound.frame.kind == Some("user_input_response")
             && Truthy(inbound.frame.requestId) && Given(inbound.frame.answers))
      ==> actions == [CallResolveUserInput(inbound.frame.requestId.value, inbound.frame.answers.value)]
    // An unknown type is reported with the type's text.
    ensures inbound.Parsed? && !IsKnownKind(inbound.frame.kind) ==>
      actions == [Reply(Error("", UnknownTypePrefix + TypeText(inbound.frame.kind)))]
  {
    match inbound
    case Unparsable => [Reply(Error("", InvalidJson))]
    case NullValue => [Throws]
    case Parsed(f) =>
      if f.kind == Some("chat") then
        if !Truthy(f.conversationId) || !Truthy(f.message) then
          [Reply(Error(OrEmpty(f.conversationId), MissingChatFields))]
        else
          [CallStartQuery(f.conversationId.value, f.message.value)]
      else if f.kind == Some("interrupt") then
        if !Truthy(f.conversationId) then []
        else if !interrupted then
          [CallInterruptQuery(f.conversationId.value), Reply(Error(f.conversationId.value, NoActiveQuery))]
        else
          [CallInterruptQuery(f.conversationId.value)]
      else if f.kind == Some("archive") then
        if !Truthy(f.conversationId) then [] else [CallArchive(f.conversationId.value)]
      else if f.kind == Some("permission_response") then
        if !Truthy(f.permissionId) then []
        else [CallResolvePermission(f.permissionId.value, Given(f.approved))]
      else if f.kind == Some("user_input_response") then
        if !Truthy(f.requestId) || !Given(f.answers) then []
        else [CallResolveUserInput(f.requestId.value, f.answers.value)]
      else
        [Reply(Error("", UnknownTypePrefix + TypeText(f.kind)))]
  }

  /** An interrupt for a named conversation always reaches the relay, and the handler answers
      exactly when the relay had no query to interrupt. */
  lemma InterruptReplies(f: ClientFrame, interrupted: bool)
    requires f.kind == Some("interrupt") && Truthy(f.conversationId)
    ensures var actions := HandleWsMessage(Parsed(f), interrupted);
      && actions[0] == CallInterruptQuery(f.conversationId.value)
      && (CountReplies(actions) == 1 <==> !interrupted)
  {
    var actions := HandleWsMessage(Parsed(f), interrupted);
    if !interrupted {
      assert actions[..1] == [CallInterruptQuery(f.conversationId.value)];
    }
  }

  /** A chat frame that names its conversation but carries no message is answered on that
      conversation. */
  lemma MissingMessageAnswered(f: ClientFrame)
    requires f.kind == Some("chat") && Truthy(f.conversationId) && !Truthy(f.message)
    ensures HandleWsMessage(Parsed(f), false) == [Reply(Error(f.conversationId.value, MissingChatFields))]
  {
  }

  /** `wsSend`: a send on a closed socket is dropped and no error reaches the caller. The
      result is what the client has received after the call. */
  function WsSend(socketOpen: bool, received: seq<ServerMessage>, msg: ServerMessage): (r: seq<ServerMessage>)
    ensures |r| == |received| + (if socketOpen then 1 else 0)
    ensures r[..|received|] == received
    ensures socketOpen ==> r[|received|] == msg
  {
    if socketOpen then received + [msg] else received
  }
}

/** The relay of src/sdk/manager.ts: the registry of running queries (one per conversation), the
    permission broker that parks each tool-permission check of the agent SDK until the user or
    the end of the query resolves it, the query loop that drives the event translator, and
    archiving with summary generation. */
module Manager {
  import opened Values
  import opened Text
  import opened Protocol
  import opened Store
  import opened OrderedMap
  import opened Translator

  const NotFound: string := "Conversation not found"
  const AlreadyActive: string := "A query is already active for this conversation"
  const AlreadyArchived: string := "Already archived"
  const UserDenied: string := "User denied permission"
  const QueryEnded: string := "Query ended"
  const QueryFailed: string := "Query failed"
  const NoMessagesSummary: string := "No messages in this conversation."
  const GeneratingSummary: string := "Generating summary..."

  /** A running query; `interruptRequested` records that `q.interrupt()` was called. */
  datatype QueryHandle = QueryHandle(interruptRequested: bool)

  /** A parked permission check: the conversation it belongs to and the tool input to hand
      back on approval. */
  datatype PendingPermission = PendingPermission(conversationId: string, input: Json)

  /** One call of a parked check's `resolve`. */
  datatype Resolution = Resolution(permissionId: string, result: PermissionResult)

  /** What happens while a query runs, in order: a message from the SDK stream, a permission
      check the SDK makes (`canUseTool`), or the user answering a parked check. */
  datatype QueryEvent =
    | Sdk(msg: SdkMessage)
    | AskPermission(permissionId: string, toolName: string, input: Json)
    | UserDecision(permissionId: string, approved: bool)

  /** How the SDK stream ends: it runs out, or it throws an error with a message (empty when
      the error carries none). */
  datatype Ending = Exhausted | Thrown(message: string)

  /** The outcome of the one-turn summary query: the content of each assistant message it
      yields, or an error. */
  datatype SummaryReply = SummaryTurns(turns: seq<AssistantContent>) | SummaryThrows

  /** The store and the messages sent that one step produces. */
  datatype Effects = Effects(db: Db, sent: seq<ServerMessage>)

  // ---------------------------------------------------------------------------------------
  // Pure parts

  /** Titles are set only for a conversation that has not had a session yet and still has the
      default title. */
  predicate ShouldAutoTitle(conversation: Conversation) {
    !Truthy(conversation.sessionId) && conversation.title == DefaultTitle
  }

  /** The title taken from the first user message: the message itself up to 50 characters,
      otherwise its first 50 characters and "...". */
  function AutoTitle(message: string): (title: string)
    ensures |message| <= 50 ==> title == message
    ensures |message| > 50 ==> |title| == 53 && title[..50] == message[..50] && title[50..] == "..."
    ensures |title| <= 53
  {
    if |message| > 50 then message[..50] + "..." else message
  }

  /** `err.message || "Query failed"` */
  function ErrorText(message: string): (text: string)
    ensures text != ""
    ensures message != "" ==> text == message
    ensures message == "" ==> text == QueryFailed
  {
    if message == "" then QueryFailed else message
  }

  /** Errors that mean the resumed session no longer exists. */
  predicate IsSessionGone(text: string) {
    Contains(text, "exited with code") || Contains(text, "session") || Contains(text, "ENOENT")
  }

  /** An error means the session is gone exactly when one of the three markers occurs
      somewhere in its text. */
  lemma SessionGoneIff(text: string)
    ensures IsSessionGone(text) <==>
      exists k :: OccursAt(text, "exited with code", k) || OccursAt(text, "session", k) || OccursAt(text, "ENOENT", k)
  {
    ContainsAt(text, "exited with code");
    ContainsAt(text, "session");
    ContainsAt(text, "ENOENT");
  }

  /** The first truthy session id carried by an SDK message among the events. */
  function FirstSession(events: seq<QueryEvent>): (s: Option<string>)
    ensures s.Some? ==> s.value != "" && exists i :: (0 <= i < |events| && CarriesSession(events[i])
      && events[i].msg.sessionId == s && forall j :: 0 <= j < i ==> !CarriesSession(events[j]))
    ensures s.None? ==> forall i :: 0 <= i < |events| ==> !CarriesSession(events[i])
    decreases |events|
  {
    if events == [] then None
    else
      var prev := FirstSession(events[..|events| - 1]);
      var last := events[|events| - 1];
      assert forall i :: 0 <= i < |events| - 1 ==> events[..|events| - 1][i] == events[i];
      if prev.Some? then prev
      else if CarriesSession(last) then last.msg.sessionId
      else None
  }

  predicate CarriesSession(e: QueryEvent) {
    e.Sdk? && Truthy(e.msg.sessionId)
  }

  /** The text of one summary turn: the text blocks concatenated, or the plain string. */
  function TurnText(content: AssistantContent): Option<string> {
    match content
    case ContentArray(bs) => Some(TextOf(bs))
    case ContentString(s) => Some(s)
    case ContentOther => None
  }

  /** `summaryText` after the summary stream: the text of the last turn with array or string
      content, which for an array without text blocks is the empty string. */
  function SummaryText(turns: seq<AssistantContent>): (s: string)
    ensures turns != [] && TurnText(turns[|turns| - 1]).Some? ==> s == TurnText(turns[|turns| - 1]).value
    ensures (forall i :: 0 <= i < |turns| ==> TurnText(turns[i]).None?) ==> s == ""
    ensures s == "" || exists i :: 0 <= i < |turns| && TurnText(turns[i]) == Some(s)
    decreases |turns|
  {
    if turns == [] then ""
    else
      var prev := SummaryText(turns[..|turns| - 1]);
      assert forall i :: 0 <= i < |turns| - 1 ==> turns[..|turns| - 1][i] == turns[i];
      match TurnText(turns[|turns| - 1])
      case Some(t) => t
      case None => prev
  }

  /** Turn `i` has array or string content and no later turn has. */
  predicate LastWithText(turns: seq<AssistantContent>, i: int) {
    0 <= i < |turns| && TurnText(turns[i]).Some? && forall j :: i < j < |turns| ==> TurnText(turns[j]).None?
  }

  /** When some turn has array or string content, the summary is the text of the last such
      turn, even when that text is empty. */
  lemma {:induction false} SummaryTextIsLast(turns: seq<AssistantContent>)
    ensures (exists i :: 0 <= i < |turns| && TurnText(turns[i]).Some?) ==>
      exists i :: LastWithText(turns, i) && TurnText(turns[i]) == Some(SummaryText(turns))
    decreases |turns|
  {
    if exists i :: 0 <= i < |turns| && TurnText(turns[i]).Some? {
      var last := |turns| - 1;
      if TurnText(turns[last]).Some? {
        assert LastWithText(turns, last);
      } else {
        var init := turns[..last];
        var k :| 0 <= k < |turns| && TurnText(turns[k]).Some?;
        assert init[k] == turns[k];
        SummaryTextIsLast(init);
        var i :| LastWithText(init, i) && TurnText(init[i]) == Some(SummaryText(init));
        assert init[i] == turns[i];
        forall j | i < j < |turns| ensures TurnText(turns[j]).None? {
          if j < last {
            assert init[j] == turns[j] && TurnText(init[j]).None?;
          } else {
            assert j == last;
          }
        }
        assert LastWithText(turns, i);
      }
    }
  }

  function RoleName(role: Role): string {
    match role
    case User => "USER"
    case Assistant => "ASSISTANT"
  }

  /** `[#n] ROLE: content` */
  function TranscriptLine(n: nat, row: MessageRow): string {
    "[#" + NatToString(n) + "] " + RoleName(row.role) + ": " + row.content
  }

  /** The message number of a transcript line reads back as the number it was given, so
      "see #n" references in a summary point at the right message; the role and the content
      follow. */
  lemma TranscriptLineNumber(n: nat, row: MessageRow)
    ensures var line := TranscriptLine(n, row);
      var d := |NatToString(n)|;
      && |line| >= d + 4 && line[..2] == "[#" && line[2 + d..4 + d] == "] "
      && (forall k :: 2 <= k < 2 + d ==> IsDigit(line[k]))
      && ParseNat(line[2..2 + d]) == n
      && line[4 + d..] == RoleName(row.role) + ": " + row.content
  {
    var line := TranscriptLine(n, row);
    var number := NatToString(n);
    var d := |number|;
    var tail := RoleName(row.role) + ": " + row.content;
    assert line == "[#" + number + "] " + tail;
    assert line[2..2 + d] == number;
    assert line[4 + d..] == tail;
    ParseNatToString(n);
  }

  /** The numbered transcript handed to the summary query, one line per message and a blank
      line between messages. */
  function Transcript(rows: seq<MessageRow>): string {
    Join(seq(|rows|, i requires 0 <= i < |rows| => TranscriptLine(i + 1, rows[i])), "\n\n")
  }

  /** A one-message transcript is that message's line; each further message adds a blank line
      and its own line, numbered one past the messages before it. */
  lemma TranscriptShape(rows: seq<MessageRow>, row: MessageRow)
    ensures Transcript([row]) == TranscriptLine(1, row)
    ensures rows != [] ==> Transcript(rows + [row]) == Transcript(rows) + "\n\n" + TranscriptLine(|rows| + 1, row)
  {
    assert seq(1, i requires 0 <= i < 1 => TranscriptLine(i + 1, [row][i])) == [TranscriptLine(1, row)];
    if rows != [] {
      var all := rows + [row];
      var init := seq(|rows|, i requires 0 <= i < |rows| => TranscriptLine(i + 1, rows[i]));
      var last := TranscriptLine(|rows| + 1, row);
      assert seq(|all|, i requires 0 <= i < |all| => TranscriptLine(i + 1, all[i])) == init + [last];
      JoinSnoc(init, last, "\n\n");
    }
  }

  function FallbackSummary(count: nat): string {
    "Summary generation failed. Conversation had " + NatToString(count) + " messages."
  }

  /** The fallback summary names the number of messages, which reads back from the text. */
  lemma FallbackSummaryCount(count: nat)
    ensures var s := FallbackSummary(count);
      var d := |NatToString(count)|;
      && |s| == 54 + d
      && s[..44] == "Summary generation failed. Conversation had "
      && s[44 + d..] == " messages."
      && ParseNat(s[44..44 + d]) == count
  {
    var s := FallbackSummary(count);
    var d := |NatToString(count)|;
    assert s[44..44 + d] == NatToString(count);
    ParseNatToString(count);
  }

  /** What `generateSummary` stores and announces after its status message, given the
      conversation's messages; None when the summary query produced no text. */
  function SummaryFor(rows: seq<MessageRow>, answer: string -> SummaryReply): (s: Option<string>)
    ensures s.Some? ==> s.value != ""
  {
    match answer(Transcript(rows))
    case SummaryThrows => Some(FallbackSummary(|rows|))
    case SummaryTurns(turns) =>
      var text := SummaryText(turns);
      if text == "" then None else Some(text)
  }

  /** The loop of `generateSummary` over the summary stream: each assistant turn with text
      replaces what was kept before. */
  method FoldSummary(turns: seq<AssistantContent>) returns (summaryText: string)
    ensures summaryText == SummaryText(turns)
  {
    summaryText := "";
    var i := 0;
    while i < |turns|
      invariant 0 <= i <= |turns|
      invariant summaryText == SummaryText(turns[..i])
    {
      assert turns[..i + 1][..i] == turns[..i];
      match turns[i] {
        case ContentArray(bs) => summaryText := TextOf(bs);
        case ContentString(s) => summaryText := s;
        case ContentOther =>
      }
      i := i + 1;
    }
    assert turns[..i] == turns;
  }

  /** The effects of `generateSummary` on conversation `c`. An empty conversation gets the
      fixed summary at once; otherwise a status goes out first and the summary that is stored
      (if any) is the one announced. */
  function Summarise(db: Db, c: string, answer: string -> SummaryReply): (e: Effects)
    ensures e.db == db || exists s :: e.db == SetSummary(db, s, c)
    ensures e.db.conversations.Keys == db.conversations.Keys && e.db.messages == db.messages
    ensures c in db.conversations ==>
      e.db.conversations[c].sessionId == db.conversations[c].sessionId
      && e.db.conversations[c].status == db.conversations[c].status
      && e.db.conversations[c].title == db.conversations[c].title
    ensures forall i :: 0 <= i < |e.sent| ==> About(e.sent[i], c)
    ensures ListMessages(db, c) == [] ==>
      e == Effects(SetSummary(db, NoMessagesSummary, c), [SummaryReady(c, NoMessagesSummary)])
    ensures ListMessages(db, c) != [] ==> |e.sent| >= 1 && e.sent[0] == Status(c, GeneratingSummary)
    ensures forall s :: SummaryReady(c, s) in e.sent ==> e.db == SetSummary(db, s, c)
    ensures (forall s :: SummaryReady(c, s) !in e.sent) ==> e.db == db
  {
    var rows := ListMessages(db, c);
    if rows == [] then
      Effects(SetSummary(db, NoMessagesSummary, c), [SummaryReady(c, NoMessagesSummary)])
    else
      match SummaryFor(rows, answer)
      case Some(s) => Effects(SetSummary(db, s, c), [Status(c, GeneratingSummary), SummaryReady(c, s)])
      case None => Effects(db, [Status(c, GeneratingSummary)])
  }

  /** What `generateSummary` stores for a conversation with messages: the fallback text with
      the message count when the summary query throws, the summary text when the query yields
      some, and nothing, with only the status sent, when it yields none. */
  lemma SummariseStores(db: Db, c: string, answer: string -> SummaryReply)
    requires ListMessages(db, c) != []
    ensures var rows := ListMessages(db, c);
      var reply := answer(Transcript(rows));
      var e := Summarise(db, c, answer);
      && (reply.SummaryThrows? ==>
            e == Effects(SetSummary(db, FallbackSummary(|rows|), c),
                         [Status(c, GeneratingSummary), SummaryReady(c, FallbackSummary(|rows|))]))
      && (reply.SummaryTurns? && SummaryText(reply.turns) != "" ==>
            e == Effects(SetSummary(db, SummaryText(reply.turns), c),
                         [Status(c, GeneratingSummary), SummaryReady(c, SummaryText(reply.turns))]))
      && (reply.SummaryTurns? && SummaryText(reply.turns) == "" ==>
            e == Effects(db, [Status(c, GeneratingSummary)]))
  {
  }

  /** The ids of the parked checks that belong to conversation `c`, in table order. */
  function OwnedKeys(t: Table<PendingPermission>, c: string): seq<string>
    decreases |t|
  {
    if t == [] then []
    else OwnedKeys(t[..|t| - 1], c) + (if t[|t| - 1].value.conversationId == c then [t[|t| - 1].key] else [])
  }

  /** OwnedKeys lists the keys of the entries of `c`, and only those. */
  lemma {:induction false} OwnedKeysMembers(t: Table<PendingPermission>, c: string)
    ensures forall k :: k in OwnedKeys(t, c) ==> exists i :: 0 <= i < |t| && t[i].key == k && t[i].value.conversationId == c
    ensures forall i :: 0 <= i < |t| && t[i].value.conversationId == c ==> t[i].key in OwnedKeys(t, c)
    decreases |t|
  {
    if t != [] {
      var p := t[..|t| - 1];
      OwnedKeysMembers(p, c);
      assert forall i :: 0 <= i < |p| ==> p[i] == t[i];
    }
  }

  predicate OwnedBy(t: Table<PendingPermission>, k: string, c: string) {
    Has(t, k) && Get(t, k).value.value.conversationId == c
  }

  /** In a table without repeated keys, OwnedKeys lists exactly the checks owned by `c`. */
  lemma OwnedKeysExact(t: Table<PendingPermission>, c: string)
    requires WellFormed(t)
    ensures forall k :: k in OwnedKeys(t, c) <==> OwnedBy(t, k, c)
  {
    OwnedKeysMembers(t, c);
    forall k ensures k in OwnedKeys(t, c) <==> OwnedBy(t, k, c) {
      if k in OwnedKeys(t, c) {
        var i :| 0 <= i < |t| && t[i].key == k && t[i].value.conversationId == c;
        IndexOfEntry(t, i);
      }
      if OwnedBy(t, k, c) {
        var i := IndexOf(t, k);
        assert t[i].value.conversationId == c;
      }
    }
  }

  /** Deleting the owned checks removes exactly those and keeps every other entry as it was. */
  lemma SweepFacts(t: Table<PendingPermission>, c: string)
    requires WellFormed(t)
    ensures var r := DeleteAll(t, OwnedKeys(t, c));
      && (forall k :: Has(r, k) <==> Has(t, k) && !OwnedBy(t, k, c))
      && (forall k :: Has(r, k) ==> Get(r, k) == Get(t, k))
  {
    OwnedKeysExact(t, c);
    DeleteAllLookup(t, OwnedKeys(t, c));
  }

  /** One more entry of the sweep: how the owned ids, their deletion and their denials grow. */
  lemma SweepStep(t: Table<PendingPermission>, i: int, c: string)
    requires WellFormed(t) && 0 <= i < |t|
    ensures var ks := OwnedKeys(t[..i], c);
      var k := t[i].key;
      if t[i].value.conversationId == c then
        && OwnedKeys(t[..i + 1], c) == ks + [k]
        && DeleteAll(t, ks + [k]) == Delete(DeleteAll(t, ks), k)
        && Denials(ks + [k]) == Denials(ks) + [Resolution(k, Deny(QueryEnded))]
      else
        OwnedKeys(t[..i + 1], c) == ks
  {
    var ks := OwnedKeys(t[..i], c);
    assert t[..i + 1][..i] == t[..i];
    assert (ks + [t[i].key])[..|ks|] == ks;
  }

  /** One `deny` "Query ended" per listed id. */
  function Denials(ks: seq<string>): (r: seq<Resolution>)
    ensures |r| == |ks|
    ensures forall i :: 0 <= i < |ks| ==> r[i] == Resolution(ks[i], Deny(QueryEnded))
  {
    seq(|ks|, i requires 0 <= i < |ks| => Resolution(ks[i], Deny(QueryEnded)))
  }

  /** The sweep of the `finally` block: walk the parked checks in order, deny each one of
      conversation `c` with "Query ended" and delete it. */
  method SweepPermissions(entries: Table<PendingPermission>, c: string)
    returns (table: Table<PendingPermission>, ghost denied: seq<Resolution>)
    requires WellFormed(entries)
    ensures table == DeleteAll(entries, OwnedKeys(entries, c))
    ensures denied == Denials(OwnedKeys(entries, c))
  {
    table := entries;
    denied := [];
    var i := 0;
    while i < |entries|
      invariant 0 <= i <= |entries|
      invariant table == DeleteAll(entries, OwnedKeys(entries[..i], c))
      invariant denied == Denials(OwnedKeys(entries[..i], c))
    {
      SweepStep(entries, i, c);
      if entries[i].value.conversationId == c {
        denied := denied + [Resolution(entries[i].key, Deny(QueryEnded))];
        table := Delete(table, entries[i].key);
      }
      i := i + 1;
    }
    assert entries[..i] == entries;
  }

  // ---------------------------------------------------------------------------------------
  // A query, as a value

  /** The part of the relay's state that a query changes: the store, the messages handed to
      `send`, the parked checks and the calls of their `resolve`. */
  datatype RelayState = RelayState(
    db: Db,
    sent: seq<ServerMessage>,
    permissions: Table<PendingPermission>,
    resolutions: seq<Resolution>)

  /** The relay's state and the query's bookkeeping while the stream runs. */
  datatype Stream = Stream(relay: RelayState, run: RunState)

  predicate StreamOk(st: Stream) {
    WellFormed(st.relay.permissions) && WellFormed(st.run.pending)
  }

  /** A completed assistant turn in the store: its row, then the automatic title when the
      conversation qualified when the query started. */
  function TurnStored(db: Db, c: string, autoTitle: bool, message: string, f: Flat): Db {
    var stored := InsertMessage(db, MessageRow(c, Assistant, f.text, if |f.blocks| > 0 then Some(f.blocks) else None));
    if autoTitle then UpdateTitle(stored, AutoTitle(message), c) else stored
  }

  /** One SDK message of a query on `c`: the session capture, then the translation; an
      assistant turn is also stored. */
  function SdkAfter(c: string, autoTitle: bool, message: string, parse: string -> Option<Json>,
                    st: Stream, msg: SdkMessage): (r: Stream)
    requires StreamOk(st)
    ensures StreamOk(r)
  {
    BodyAfter(c, autoTitle, message, parse, CaptureAfter(c, st, msg.sessionId), msg.body)
  }

  /** Session capture: the first truthy session id of the stream is stored, once. */
  function CaptureAfter(c: string, st: Stream, sessionId: Option<string>): (r: Stream)
    requires StreamOk(st)
    ensures StreamOk(r)
  {
    if !st.run.sessionCaptured && Truthy(sessionId) then
      Stream(st.relay.(db := UpdateSessionId(st.relay.db, sessionId.value, c)), st.run.(sessionCaptured := true))
    else st
  }

  /** The SDK switch on the relay: the translation is sent, and an assistant turn is stored. */
  function BodyAfter(c: string, autoTitle: bool, message: string, parse: string -> Option<Json>,
                     st: Stream, body: SdkBody): (r: Stream)
    requires StreamOk(st)
    ensures StreamOk(r)
  {
    var t := Translate(c, st.run, body, parse);
    var db := if body.AssistantTurn? then TurnStored(st.relay.db, c, autoTitle, message, AssistantOutput(body.content, st.run.pending))
              else st.relay.db;
    Stream(st.relay.(db := db, sent := st.relay.sent + t.out), t.state)
  }

  /** One event of a query on `c`: an SDK message, a permission check parked under its id (and
      announced), or the user's answer resolving a parked check once. */
  function EventAfter(c: string, autoTitle: bool, message: string, parse: string -> Option<Json>,
                      st: Stream, e: QueryEvent): (r: Stream)
    requires StreamOk(st)
    ensures StreamOk(r)
  {
    match e
    case Sdk(msg) => SdkAfter(c, autoTitle, message, parse, st, msg)
    case AskPermission(permissionId, toolName, input) =>
      st.(relay := st.relay.(sent := st.relay.sent + [PermissionRequest(c, permissionId, toolName, input)],
                             permissions := Set(st.relay.permissions, permissionId, PendingPermission(c, input))))
    case UserDecision(permissionId, approved) =>
      var entry := Get(st.relay.permissions, permissionId);
      if entry.None? then st
      else
        var result := if approved then Allow(entry.value.value.input) else Deny(UserDenied);
        st.(relay := st.relay.(permissions := Delete(st.relay.permissions, permissionId),
                               resolutions := st.relay.resolutions + [Resolution(permissionId, result)]))
  }

  /** The `for await` loop of a query on `c` over all its events, in order. */
  function StreamAfter(c: string, autoTitle: bool, message: string, parse: string -> Option<Json>,
                       st: Stream, events: seq<QueryEvent>): (r: Stream)
    requires StreamOk(st)
    ensures StreamOk(r)
    decreases |events|
  {
    if events == [] then st
    else EventAfter(c, autoTitle, message, parse, StreamAfter(c, autoTitle, message, parse, st, events[..|events| - 1]),
                    events[|events| - 1])
  }

  /** The stream over one more event is one more step after the stream so far. */
  lemma StreamSnoc(c: string, autoTitle: bool, message: string, parse: string -> Option<Json>,
                   st: Stream, events: seq<QueryEvent>, i: nat)
    requires StreamOk(st) && i < |events|
    ensures StreamAfter(c, autoTitle, message, parse, st, events[..i + 1])
         == EventAfter(c, autoTitle, message, parse, StreamAfter(c, autoTitle, message, parse, st, events[..i]), events[i])
  {
    assert events[..i + 1][..i] == events[..i];
  }

  /** The `catch` of `startQuery`: a session-gone error on a resumed conversation archives and
      summarises it; any other error is sent. */
  function CaughtAfter(c: string, snapshot: Conversation, message: string, answer: string -> SummaryReply,
                       r: RelayState): RelayState
  {
    var errorText := ErrorText(message);
    if IsSessionGone(errorText) && Truthy(snapshot.sessionId) then
      var e := Summarise(MarkArchived(r.db, c), c, answer);
      r.(db := e.db, sent := r.sent + [Archived(c)] + e.sent)
    else
      r.(sent := r.sent + [Error(c, errorText)])
  }

  /** The `finally` of `startQuery`: touch the conversation, deny and remove its parked checks. */
  function FinallyAfter(c: string, r: RelayState): RelayState
    requires WellFormed(r.permissions)
  {
    var owned := OwnedKeys(r.permissions, c);
    r.(db := Touch(r.db, c), permissions := DeleteAll(r.permissions, owned), resolutions := r.resolutions + Denials(owned))
  }

  /** How a started query ends: the `catch` when the stream threw, then the `finally`. */
  function EndAfter(c: string, snapshot: Conversation, ending: Ending, answer: string -> SummaryReply,
                    r: RelayState): RelayState
    requires WellFormed(r.permissions)
  {
    FinallyAfter(c, if ending.Thrown? then CaughtAfter(c, snapshot, ending.message, answer, r) else r)
  }

  /** The accepted path of `startQuery` on conversation `c`: the user message stored, the stream
      relayed from fresh bookkeeping, and the query ended. */
  function QueryOutcome(c: string, message: string, events: seq<QueryEvent>, ending: Ending,
                        answer: string -> SummaryReply, parse: string -> Option<Json>, r: RelayState): RelayState
    requires c in r.db.conversations && WellFormed(r.permissions)
  {
    var snapshot := r.db.conversations[c];
    var st := StreamAfter(c, ShouldAutoTitle(snapshot), message, parse, QueryStart(c, message, r), events);
    EndAfter(c, snapshot, ending, answer, st.relay)
  }

  /** A completed assistant turn among the events, and how many there are. */
  predicate IsTurn(e: QueryEvent) {
    e.Sdk? && e.msg.body.AssistantTurn?
  }

  function Turns(events: seq<QueryEvent>): nat
    decreases |events|
  {
    if events == [] then 0 else Turns(events[..|events| - 1]) + (if IsTurn(events[|events| - 1]) then 1 else 0)
  }

  /** `r` extends `st`'s log, and everything added is addressed to `c`. */
  predicate SendsAbout(before: seq<ServerMessage>, after: seq<ServerMessage>, c: string) {
    before <= after && forall i :: |before| <= i < |after| ==> About(after[i], c)
  }

  /** One event only adds to the log, with messages about `c`, only adds resolutions, and
      keeps the set of conversations. */
  lemma EventGrows(c: string, autoTitle: bool, message: string, parse: string -> Option<Json>, st: Stream, e: QueryEvent)
    requires StreamOk(st)
    ensures var r := EventAfter(c, autoTitle, message, parse, st, e);
      && SendsAbout(st.relay.sent, r.relay.sent, c)
      && st.relay.resolutions <= r.relay.resolutions
      && r.relay.db.conversations.Keys == st.relay.db.conversations.Keys
  {
    if e.Sdk? {
      var mid := CaptureAfter(c, st, e.msg.sessionId);
      var t := Translate(c, mid.run, e.msg.body, parse);
      assert EventAfter(c, autoTitle, message, parse, st, e).relay.sent == st.relay.sent + t.out;
    }
  }

  /** Over the whole stream, the log and the resolutions only grow, every message sent is about
      `c`, and no conversation appears or disappears. */
  lemma {:induction false} StreamGrows(c: string, autoTitle: bool, message: string, parse: string -> Option<Json>,
                                       st: Stream, events: seq<QueryEvent>)
    requires StreamOk(st)
    ensures var r := StreamAfter(c, autoTitle, message, parse, st, events);
      && SendsAbout(st.relay.sent, r.relay.sent, c)
      && st.relay.resolutions <= r.relay.resolutions
      && r.relay.db.conversations.Keys == st.relay.db.conversations.Keys
    decreases |events|
  {
    if events != [] {
      var prefix := events[..|events| - 1];
      StreamGrows(c, autoTitle, message, parse, st, prefix);
      EventGrows(c, autoTitle, message, parse, StreamAfter(c, autoTitle, message, parse, st, prefix), events[|events| - 1]);
    }
  }

  /** One event adds one assistant row of `c` when it is a completed turn, and no row otherwise. */
  lemma EventRows(c: string, autoTitle: bool, message: string, parse: string -> Option<Json>, st: Stream, e: QueryEvent)
    requires StreamOk(st)
    ensures var r := EventAfter(c, autoTitle, message, parse, st, e);
      && st.relay.db.messages <= r.relay.db.messages
      && |r.relay.db.messages| == |st.relay.db.messages| + (if IsTurn(e) then 1 else 0)
      && forall i :: |st.relay.db.messages| <= i < |r.relay.db.messages| ==>
           r.relay.db.messages[i].conversationId == c && r.relay.db.messages[i].role == Assistant
  {
    if e.Sdk? {
      var mid := CaptureAfter(c, st, e.msg.sessionId);
      assert mid.relay.db.messages == st.relay.db.messages;
    }
  }

  /** The stream adds exactly one assistant row of `c` per completed turn, after the rows
      that were there. */
  lemma {:induction false} StreamRows(c: string, autoTitle: bool, message: string, parse: string -> Option<Json>,
                                      st: Stream, events: seq<QueryEvent>)
    requires StreamOk(st)
    ensures var r := StreamAfter(c, autoTitle, message, parse, st, events);
      && st.relay.db.messages <= r.relay.db.messages
      && |r.relay.db.messages| == |st.relay.db.messages| + Turns(events)
      && forall i :: |st.relay.db.messages| <= i < |r.relay.db.messages| ==>
           r.relay.db.messages[i].conversationId == c && r.relay.db.messages[i].role == Assistant
    decreases |events|
  {
    if events != [] {
      var prefix := events[..|events| - 1];
      StreamRows(c, autoTitle, message, parse, st, prefix);
      EventRows(c, autoTitle, message, parse, StreamAfter(c, autoTitle, message, parse, st, prefix), events[|events| - 1]);
    }
  }

  /** One event on the stored session id and the capture flag. */
  lemma EventSession(c: string, autoTitle: bool, message: string, parse: string -> Option<Json>, st: Stream, e: QueryEvent)
    requires StreamOk(st) && c in st.relay.db.conversations
    ensures var r := EventAfter(c, autoTitle, message, parse, st, e);
      && c in r.relay.db.conversations
      && r.run.sessionCaptured == (st.run.sessionCaptured || CarriesSession(e))
      && r.relay.db.conversations[c].sessionId ==
           if !st.run.sessionCaptured && CarriesSession(e) then e.msg.sessionId else st.relay.db.conversations[c].sessionId
  {
    EventGrows(c, autoTitle, message, parse, st, e);
    if e.Sdk? {
      var mid := CaptureAfter(c, st, e.msg.sessionId);
      assert mid.relay.db.conversations[c].sessionId ==
        if !st.run.sessionCaptured && CarriesSession(e) then e.msg.sessionId else st.relay.db.conversations[c].sessionId;
    }
  }

  /** A query that starts without a session keeps the first truthy session id of its stream,
      once, and otherwise the id the conversation had. */
  lemma {:induction false} StreamSession(c: string, autoTitle: bool, message: string, parse: string -> Option<Json>,
                                         st: Stream, events: seq<QueryEvent>)
    requires StreamOk(st) && !st.run.sessionCaptured && c in st.relay.db.conversations
    ensures var r := StreamAfter(c, autoTitle, message, parse, st, events);
      && c in r.relay.db.conversations
      && (r.run.sessionCaptured <==> FirstSession(events).Some?)
      && r.relay.db.conversations[c].sessionId ==
           if FirstSession(events).Some? then FirstSession(events) else st.relay.db.conversations[c].sessionId
    decreases |events|
  {
    if events != [] {
      var prefix := events[..|events| - 1];
      StreamSession(c, autoTitle, message, parse, st, prefix);
      EventSession(c, autoTitle, message, parse, StreamAfter(c, autoTitle, message, parse, st, prefix), events[|events| - 1]);
    }
  }

  /** One event on the title: a completed turn sets the automatic title when it applies. */
  lemma EventTitle(c: string, autoTitle: bool, message: string, parse: string -> Option<Json>, st: Stream, e: QueryEvent)
    requires StreamOk(st) && c in st.relay.db.conversations
    ensures var r := EventAfter(c, autoTitle, message, parse, st, e);
      && c in r.relay.db.conversations
      && r.relay.db.conversations[c].title ==
           if autoTitle && IsTurn(e) then AutoTitle(message) else st.relay.db.conversations[c].title
  {
    EventGrows(c, autoTitle, message, parse, st, e);
    if e.Sdk? {
      var mid := CaptureAfter(c, st, e.msg.sessionId);
      assert mid.relay.db.conversations[c].title == st.relay.db.conversations[c].title;
    }
  }

  /** The title changes only when automatic titling applies, and then to the automatic title as
      soon as one assistant turn has completed. */
  lemma {:induction false} StreamTitle(c: string, autoTitle: bool, message: string, parse: string -> Option<Json>,
                                       st: Stream, events: seq<QueryEvent>)
    requires StreamOk(st) && c in st.relay.db.conversations
    ensures var r := StreamAfter(c, autoTitle, message, parse, st, events);
      && c in r.relay.db.conversations
      && r.relay.db.conversations[c].title ==
           if autoTitle && Turns(events) > 0 then AutoTitle(message) else st.relay.db.conversations[c].title
    decreases |events|
  {
    if events != [] {
      var prefix := events[..|events| - 1];
      StreamTitle(c, autoTitle, message, parse, st, prefix);
      EventTitle(c, autoTitle, message, parse, StreamAfter(c, autoTitle, message, parse, st, prefix), events[|events| - 1]);
    }
  }

  /** Ending a query changes, in the store, only the row's time stamp, and with a session-gone
      error on a resumed conversation its status and summary. */
  lemma EndStore(c: string, snapshot: Conversation, ending: Ending, answer: string -> SummaryReply, r: RelayState)
    requires WellFormed(r.permissions) && c in r.db.conversations
    ensures var o := EndAfter(c, snapshot, ending, answer, r);
      && o.db.conversations.Keys == r.db.conversations.Keys && o.db.messages == r.db.messages
      && o.db.conversations[c].title == r.db.conversations[c].title
      && o.db.conversations[c].sessionId == r.db.conversations[c].sessionId
      && (ending.Thrown? && IsSessionGone(ErrorText(ending.message)) && Truthy(snapshot.sessionId) ==>
            o.db.conversations[c].status == ArchivedConversation)
  {
    if ending.Thrown? && IsSessionGone(ErrorText(ending.message)) && Truthy(snapshot.sessionId) {
      var archived := MarkArchived(r.db, c);
      var e := Summarise(archived, c, answer);
      assert e.db.conversations[c].status == ArchivedConversation;
    }
  }

  /** Ending a query sends only messages about `c`: nothing when the stream ran out, an error
      last for an ordinary error, `archived` and the summary for a gone session. */
  lemma EndSends(c: string, snapshot: Conversation, ending: Ending, answer: string -> SummaryReply, r: RelayState)
    requires WellFormed(r.permissions)
    ensures var o := EndAfter(c, snapshot, ending, answer, r);
      && SendsAbout(r.sent, o.sent, c)
      && (ending.Exhausted? ==> o.sent == r.sent)
      && (ending.Thrown? && !(IsSessionGone(ErrorText(ending.message)) && Truthy(snapshot.sessionId)) ==>
            o.sent == r.sent + [Error(c, ErrorText(ending.message))])
      && (ending.Thrown? && IsSessionGone(ErrorText(ending.message)) && Truthy(snapshot.sessionId) ==>
            |o.sent| > |r.sent| && o.sent[|r.sent|] == Archived(c))
  {
  }

  /** Ending a query denies each parked check of `c` with "Query ended", in table order, and
      removes it; every other check stays parked as it was. */
  lemma EndChecks(c: string, snapshot: Conversation, ending: Ending, answer: string -> SummaryReply, r: RelayState)
    requires WellFormed(r.permissions)
    ensures var o := EndAfter(c, snapshot, ending, answer, r);
      && o.resolutions == r.resolutions + Denials(OwnedKeys(r.permissions, c))
      && (forall k :: Has(o.permissions, k) <==> Has(r.permissions, k) && !OwnedBy(r.permissions, k, c))
      && (forall k :: Has(o.permissions, k) ==> Get(o.permissions, k) == Get(r.permissions, k))
  {
    SweepFacts(r.permissions, c);
  }

  /** The stream's starting point in `QueryOutcome`. */
  function QueryStart(c: string, message: string, r: RelayState): Stream {
    Stream(r.(db := InsertMessage(r.db, MessageRow(c, User, message, None))), FreshRun)
  }

  /** A query's title: the automatic title exactly when the conversation had no session and the
      default title and at least one assistant turn completed; otherwise the title it had. */
  lemma QueryTitle(c: string, message: string, events: seq<QueryEvent>, ending: Ending,
                   answer: string -> SummaryReply, parse: string -> Option<Json>, r: RelayState)
    requires c in r.db.conversations && WellFormed(r.permissions)
    ensures var o := QueryOutcome(c, message, events, ending, answer, parse, r);
      var before := r.db.conversations[c];
      && c in o.db.conversations
      && o.db.conversations[c].title ==
           if ShouldAutoTitle(before) && Turns(events) > 0 then AutoTitle(message) else before.title
  {
    var before := r.db.conversations[c];
    var st := StreamAfter(c, ShouldAutoTitle(before), message, parse, QueryStart(c, message, r), events);
    StreamTitle(c, ShouldAutoTitle(before), message, parse, QueryStart(c, message, r), events);
    EndStore(c, before, ending, answer, st.relay);
  }

  /** A query's session id: the first truthy one its stream carried, otherwise the one the
      conversation had. */
  lemma QuerySession(c: string, message: string, events: seq<QueryEvent>, ending: Ending,
                     answer: string -> SummaryReply, parse: string -> Option<Json>, r: RelayState)
    requires c in r.db.conversations && WellFormed(r.permissions)
    ensures var o := QueryOutcome(c, message, events, ending, answer, parse, r);
      && c in o.db.conversations
      && o.db.conversations[c].sessionId ==
           if FirstSession(events).Some? then FirstSession(events) else r.db.conversations[c].sessionId
  {
    var before := r.db.conversations[c];
    var st := StreamAfter(c, ShouldAutoTitle(before), message, parse, QueryStart(c, message, r), events);
    StreamSession(c, ShouldAutoTitle(before), message, parse, QueryStart(c, message, r), events);
    EndStore(c, before, ending, answer, st.relay);
  }

  /** A query stores the user message first, then exactly one assistant row per completed turn. */
  lemma QueryMessages(c: string, message: string, events: seq<QueryEvent>, ending: Ending,
                      answer: string -> SummaryReply, parse: string -> Option<Json>, r: RelayState)
    requires c in r.db.conversations && WellFormed(r.permissions)
    ensures var o := QueryOutcome(c, message, events, ending, answer, parse, r);
      && r.db.messages + [MessageRow(c, User, message, None)] <= o.db.messages
      && |o.db.messages| == |r.db.messages| + 1 + Turns(events)
      && forall i :: |r.db.messages| < i < |o.db.messages| ==>
           o.db.messages[i].conversationId == c && o.db.messages[i].role == Assistant
  {
    var before := r.db.conversations[c];
    var start := QueryStart(c, message, r);
    var st := StreamAfter(c, ShouldAutoTitle(before), message, parse, start, events);
    StreamRows(c, ShouldAutoTitle(before), message, parse, start, events);
    StreamGrows(c, ShouldAutoTitle(before), message, parse, start, events);
    EndStore(c, before, ending, answer, st.relay);
  }

  /** Everything a query sends is about its conversation and follows what was sent before, and
      resolutions are only added; a thrown error ends the log with the error, or archives the
      conversation when a resumed session is gone. */
  lemma QuerySends(c: string, message: string, events: seq<QueryEvent>, ending: Ending,
                   answer: string -> SummaryReply, parse: string -> Option<Json>, r: RelayState)
    requires c in r.db.conversations && WellFormed(r.permissions)
    ensures var o := QueryOutcome(c, message, events, ending, answer, parse, r);
      var before := r.db.conversations[c];
      && SendsAbout(r.sent, o.sent, c)
      && r.resolutions <= o.resolutions
      && (ending.Thrown? && !(IsSessionGone(ErrorText(ending.message)) && Truthy(before.sessionId)) ==>
            |o.sent| > 0 && o.sent[|o.sent| - 1] == Error(c, ErrorText(ending.message)))
      && (ending.Thrown? && IsSessionGone(ErrorText(ending.message)) && Truthy(before.sessionId) ==>
            c in o.db.conversations && o.db.conversations[c].status == ArchivedConversation)
  {
    var before := r.db.conversations[c];
    var start := QueryStart(c, message, r);
    var st := StreamAfter(c, ShouldAutoTitle(before), message, parse, start, events);
    StreamGrows(c, ShouldAutoTitle(before), message, parse, start, events);
    EndSends(c, before, ending, answer, st.relay);
    EndChecks(c, before, ending, answer, st.relay);
    EndStore(c, before, ending, answer, st.relay);
  }

  /** Once a query's stream has carried a session id, its conversation no longer qualifies for
      the automatic title. */
  lemma AutoTitleOnce(c: string, message: string, events: seq<QueryEvent>, ending: Ending,
                      answer: string -> SummaryReply, parse: string -> Option<Json>, r: RelayState)
    requires c in r.db.conversations && WellFormed(r.permissions) && FirstSession(events).Some?
    ensures var o := QueryOutcome(c, message, events, ending, answer, parse, r);
      c in o.db.conversations && !ShouldAutoTitle(o.db.conversations[c])
  {
    QuerySession(c, message, events, ending, answer, parse, r);
  }

  /** After a query no check of its conversation is parked. */
  lemma QueryLeavesNoCheck(c: string, message: string, events: seq<QueryEvent>, ending: Ending,
                           answer: string -> SummaryReply, parse: string -> Option<Json>, r: RelayState)
    requires c in r.db.conversations && WellFormed(r.permissions)
    ensures var o := QueryOutcome(c, message, events, ending, answer, parse, r);
      forall k :: Has(o.permissions, k) ==> !OwnedBy(o.permissions, k, c)
  {
    var before := r.db.conversations[c];
    var st := StreamAfter(c, ShouldAutoTitle(before), message, parse, QueryStart(c, message, r), events);
    EndChecks(c, before, ending, answer, st.relay);
  }

  /** Registering a query on a conversation that had none and removing it again leaves the
      registry as it was. */
  lemma Unregistered(registry: map<string, QueryHandle>, c: string, handle: QueryHandle)
    requires c !in registry
    ensures registry[c := handle] - {c} == registry
  {
    assert (registry[c := handle] - {c}).Keys == registry.Keys;
  }

  // ---------------------------------------------------------------------------------------
  // The relay

  class Relay {
    var db: Db
    var activeQueries: map<string, QueryHandle>
    var pendingPermissions: Table<PendingPermission>
    /** Every call of a parked check's `resolve`, in order. */
    ghost var resolutions: seq<Resolution>
    /** Every message handed to `send`, in order. */
    ghost var sent: seq<ServerMessage>
    /** `JSON.parse`, as a partial function. */
    const parse: string -> Option<Json>

    ghost predicate Valid()
      reads this
    {
      WellFormed(pendingPermissions)
    }

    /** The part of the state that a query changes, as a value. */
    ghost function Now(): RelayState
      reads this
    {
      RelayState(db, sent, pendingPermissions, resolutions)
    }

    constructor (db: Db, parse: string -> Option<Json>)
      ensures Valid() && this.db == db && this.parse == parse
      ensures activeQueries == map[] && pendingPermissions == [] && resolutions == [] && sent == []
    {
      this.db := db;
      this.parse := parse;
      activeQueries := map[];
      pendingPermissions := [];
      resolutions := [];
      sent := [];
    }

    /** `resolvePermission`: an unknown id is reported and nothing changes; a parked check is
        removed and resolved exactly once, with its original input on approval. */
    method ResolvePermission(permissionId: string, approved: bool) returns (found: bool)
      requires Valid()
      modifies this
      ensures Valid()
      ensures db == old(db) && activeQueries == old(activeQueries) && sent == old(sent)
      ensures found <==> Has(old(pendingPermissions), permissionId)
      ensures !found ==> pendingPermissions == old(pendingPermissions) && resolutions == old(resolutions)
      ensures found ==>
        var entry := Get(old(pendingPermissions), permissionId).value.value;
        && pendingPermissions == Delete(old(pendingPermissions), permissionId)
        && !Has(pendingPermissions, permissionId)
        && resolutions == old(resolutions)
             + [Resolution(permissionId, if approved then Allow(entry.input) else Deny(UserDenied))]
    {
      var entry := Get(pendingPermissions, permissionId);
      if entry.None? {
        return false;
      }
      DeleteLookup(pendingPermissions, permissionId);
      pendingPermissions := Delete(pendingPermissions, permissionId);
      if approved {
        resolutions := resolutions + [Resolution(permissionId, Allow(entry.value.value.input))];
      } else {
        resolutions := resolutions + [Resolution(permissionId, Deny(UserDenied))];
      }
      return true;
    }

    /** The `canUseTool` callback of a query on `conversationId`: announce the request and park
        the check under the SDK's tool-use id. */
    method RequestPermission(conversationId: string, permissionId: string, toolName: string, input: Json)
      requires Valid()
      modifies this
      ensures Valid()
      ensures db == old(db) && activeQueries == old(activeQueries) && resolutions == old(resolutions)
      ensures sent == old(sent) + [PermissionRequest(conversationId, permissionId, toolName, input)]
      ensures pendingPermissions == Set(old(pendingPermissions), permissionId, PendingPermission(conversationId, input))
    {
      sent := sent + [PermissionRequest(conversationId, permissionId, toolName, input)];
      pendingPermissions := Set(pendingPermissions, permissionId, PendingPermission(conversationId, input));
    }

    /** `interruptQuery`: asks the running query of the conversation to stop, if there is one. */
    method InterruptQuery(conversationId: string) returns (found: bool)
      modifies this
      ensures db == old(db) && pendingPermissions == old(pendingPermissions)
      ensures resolutions == old(resolutions) && sent == old(sent)
      ensures found <==> conversationId in old(activeQueries)
      ensures found ==> activeQueries == old(activeQueries)[conversationId := QueryHandle(true)]
      ensures !found ==> activeQueries == old(activeQueries)
    {
      if conversationId !in activeQueries {
        return false;
      }
      activeQueries := activeQueries[conversationId := QueryHandle(true)];
      return true;
    }

    /** `generateSummary`: reads the conversation's messages, asks for a summary of their
        transcript and folds the assistant turns of the reply into `summaryText`. */
    method GenerateSummary(c: string, answer: string -> SummaryReply)
      modifies this
      ensures activeQueries == old(activeQueries) && pendingPermissions == old(pendingPermissions)
      ensures resolutions == old(resolutions)
      ensures var e := Summarise(old(db), c, answer); db == e.db && sent == old(sent) + e.sent
    {
      var rows := ListMessages(db, c);
      if |rows| == 0 {
        db := SetSummary(db, NoMessagesSummary, c);
        sent := sent + [SummaryReady(c, NoMessagesSummary)];
        return;
      }
      sent := sent + [Status(c, GeneratingSummary)];
      match answer(Transcript(rows)) {
        case SummaryThrows =>
          var fallback := FallbackSummary(|rows|);
          db := SetSummary(db, fallback, c);
          sent := sent + [SummaryReady(c, fallback)];
        case SummaryTurns(turns) =>
          var summaryText := FoldSummary(turns);
          if summaryText != "" {
            db := SetSummary(db, summaryText, c);
            sent := sent + [SummaryReady(c, summaryText)];
          }
      }
    }

    /** `archiveConversation`: a missing or already archived conversation is refused; otherwise
        it is marked archived, `archived` is announced, and the summary is generated. */
    method ArchiveConversation(c: string, answer: string -> SummaryReply)
      modifies this
      ensures activeQueries == old(activeQueries) && pendingPermissions == old(pendingPermissions)
      ensures resolutions == old(resolutions)
      ensures c !in old(db.conversations) ==> db == old(db) && sent == old(sent) + [Error(c, NotFound)]
      ensures c in old(db.conversations) && old(db.conversations[c].status) == ArchivedConversation ==>
        db == old(db) && sent == old(sent) + [Error(c, AlreadyArchived)]
      ensures c in old(db.conversations) && old(db.conversations[c].status) != ArchivedConversation ==>
        var e := Summarise(MarkArchived(old(db), c), c, answer);
        && db == e.db && sent == old(sent) + [Archived(c)] + e.sent
        && db.conversations[c].status == ArchivedConversation
    {
      var conversation := GetConversation(db, c);
      if conversation.None? {
        sent := sent + [Error(c, NotFound)];
        return;
      }
      if conversation.value.status == ArchivedConversation {
        sent := sent + [Error(c, AlreadyArchived)];
        return;
      }
      db := MarkArchived(db, c);
      sent := sent + [Archived(c)];
      GenerateSummary(c, answer);
    }

    /** The `catch` of `startQuery`: an error that means the resumed session is gone archives
        the conversation and summarises it; any other error is reported. */
    method Catch(c: string, snapshot: Conversation, message: string, answer: string -> SummaryReply)
      modifies this
      ensures activeQueries == old(activeQueries) && pendingPermissions == old(pendingPermissions)
      ensures resolutions == old(resolutions)
      ensures Now() == CaughtAfter(c, snapshot, message, answer, old(Now()))
      ensures IsSessionGone(ErrorText(message)) && Truthy(snapshot.sessionId) ==>
        var e := Summarise(MarkArchived(old(db), c), c, answer);
        db == e.db && sent == old(sent) + [Archived(c)] + e.sent
      ensures !(IsSessionGone(ErrorText(message)) && Truthy(snapshot.sessionId)) ==>
        db == old(db) && sent == old(sent) + [Error(c, ErrorText(message))]
    {
      var errorText := ErrorText(message);
      if IsSessionGone(errorText) && Truthy(snapshot.sessionId) {
        db := MarkArchived(db, c);
        sent := sent + [Archived(c)];
        GenerateSummary(c, answer);
      } else {
        sent := sent + [Error(c, errorText)];
      }
    }

    /** The `finally` of `startQuery`: unregister the query, touch the conversation, and deny
        every check still parked for it, leaving other conversations' checks as they were. */
    method Finish(c: string)
      requires Valid()
      modifies this
      ensures Valid()
      ensures activeQueries == old(activeQueries) - {c}
      ensures db == Touch(old(db), c) && sent == old(sent)
      ensures resolutions == old(resolutions) + Denials(OwnedKeys(old(pendingPermissions), c))
      ensures pendingPermissions == DeleteAll(old(pendingPermissions), OwnedKeys(old(pendingPermissions), c))
      ensures Now() == FinallyAfter(c, old(Now()))
    {
      activeQueries := activeQueries - {c};
      db := Touch(db, c);
      var table, log := SweepPermissions(pendingPermissions, c);
      pendingPermissions := table;
      resolutions := resolutions + log;
    }

    /** Session capture: the first truthy session id of the stream is stored, once. */
    method CaptureSession(run: QueryRun, sessionId: Option<string>)
      requires Valid() && run.Valid()
      modifies this, run
      ensures activeQueries == old(activeQueries) && pendingPermissions == old(pendingPermissions)
      ensures resolutions == old(resolutions) && sent == old(sent)
      ensures run.thinkingAccumulator == old(run.thinkingAccumulator)
      ensures run.inputJsonAccumulators == old(run.inputJsonAccumulators)
      ensures run.blockTypes == old(run.blockTypes) && run.blockStarts == old(run.blockStarts)
      ensures run.pendingToolUses == old(run.pendingToolUses)
      ensures !old(run.sessionCaptured) && Truthy(sessionId) ==>
        run.sessionCaptured && db == UpdateSessionId(old(db), sessionId.value, run.conversationId)
      ensures !(!old(run.sessionCaptured) && Truthy(sessionId)) ==>
        run.sessionCaptured == old(run.sessionCaptured) && db == old(db)
      ensures Stream(Now(), run.State()) == CaptureAfter(run.conversationId, old(Stream(Now(), run.State())), sessionId)
    {
      if !run.sessionCaptured && Truthy(sessionId) {
        db := UpdateSessionId(db, sessionId.value, run.conversationId);
        run.sessionCaptured := true;
      }
    }

    /** A completed assistant turn: store it (its blocks only when there are any), send it, and
        set the automatic title when the conversation qualified when the query started. */
    method OnAssistantTurn(run: QueryRun, autoTitle: bool, message: string, content: AssistantContent)
      requires run.Valid()
      modifies this, run
      ensures run.Valid()
      ensures activeQueries == old(activeQueries) && pendingPermissions == old(pendingPermissions)
      ensures resolutions == old(resolutions)
      ensures var f := AssistantOutput(content, old(run.pendingToolUses));
        && db == TurnStored(old(db), run.conversationId, autoTitle, message, f)
        && sent == old(sent) + [TurnMessage(run.conversationId, f)]
        && run.State() == old(run.State()).(pending := f.table, thinking := "")
    {
      var text, contentBlocks := run.OnAssistant(content);
      var blocks := if |contentBlocks| > 0 then Some(contentBlocks) else None;
      db := InsertMessage(db, MessageRow(run.conversationId, Assistant, text, blocks));
      sent := sent + [AssistantMessage(run.conversationId, text, blocks)];
      if autoTitle {
        db := UpdateTitle(db, AutoTitle(message), run.conversationId);
      }
    }

    /** One message of the SDK stream: capture its session id, then handle its body. */
    method HandleSdkMessage(run: QueryRun, autoTitle: bool, message: string, msg: SdkMessage)
      requires Valid() && run.Valid()
      modifies this, run
      ensures Valid() && run.Valid()
      ensures activeQueries == old(activeQueries)
      ensures Stream(Now(), run.State())
           == SdkAfter(run.conversationId, autoTitle, message, parse, old(Stream(Now(), run.State())), msg)
    {
      CaptureSession(run, msg.sessionId);
      HandleBody(run, autoTitle, message, msg.body);
    }

    /** A partial-message event: the content-block handlers, whose output is sent. */
    method HandleStreamEvent(run: QueryRun, event: StreamEvent)
      requires Valid() && run.Valid()
      modifies this, run
      ensures Valid() && run.Valid()
      ensures activeQueries == old(activeQueries)
      ensures db == old(db) && pendingPermissions == old(pendingPermissions) && resolutions == old(resolutions)
      ensures var t := StreamStep(run.conversationId, old(run.State()), event, parse);
        sent == old(sent) + t.out && run.State() == t.state
    {
      match event {
        case ContentBlockStart(idx, block) =>
          run.OnBlockStart(idx, block);
        case ContentBlockDelta(idx, delta) =>
          var out := run.OnBlockDelta(idx, delta);
          sent := sent + out;
        case ContentBlockStop(idx) =>
          var out := run.OnBlockStop(idx, parse);
          sent := sent + out;
        case OtherStreamEvent =>
      }
    }

    /** The switch on the kind of an SDK message: each kind goes to its handler, and what the
        handler returns is sent. */
    method HandleBody(run: QueryRun, autoTitle: bool, message: string, body: SdkBody)
      requires Valid() && run.Valid()
      modifies this, run
      ensures Valid() && run.Valid()
      ensures activeQueries == old(activeQueries)
      ensures Stream(Now(), run.State())
           == BodyAfter(run.conversationId, autoTitle, message, parse, old(Stream(Now(), run.State())), body)
    {
      match body {
        case StreamMessage(event) =>
          HandleStreamEvent(run, event);
        case AssistantTurn(content) =>
          OnAssistantTurn(run, autoTitle, message, content);
        case ToolProgress(toolUseId, toolName) =>
          var out := run.OnToolProgress(toolUseId, toolName);
          sent := sent + out;
        case ToolUseSummary(summary, ids) =>
          var out := run.OnToolUseSummary(summary, ids);
          sent := sent + out;
        case FinalResult(subtype, errors) =>
          var out := run.OnResult(subtype, errors);
          sent := sent + out;
        case OtherSdkMessage =>
      }
    }

    /** One step of the loop below: an SDK message, a permission check the SDK makes, or the
        user's answer to one. */
    method HandleEvent(run: QueryRun, autoTitle: bool, message: string, e: QueryEvent)
      requires Valid() && run.Valid()
      modifies this, run
      ensures Valid() && run.Valid()
      ensures activeQueries == old(activeQueries)
      ensures Stream(Now(), run.State())
           == EventAfter(run.conversationId, autoTitle, message, parse, old(Stream(Now(), run.State())), e)
    {
      match e {
        case Sdk(msg) =>
          HandleSdkMessage(run, autoTitle, message, msg);
        case AskPermission(permissionId, toolName, input) =>
          RequestPermission(run.conversationId, permissionId, toolName, input);
        case UserDecision(permissionId, approved) =>
          var _ := ResolvePermission(permissionId, approved);
      }
    }

    /** The `for await` loop of `startQuery`, with the permission checks the SDK makes and the
        user's answers to them interleaved as they occur. */
    method RunEvents(run: QueryRun, autoTitle: bool, message: string, events: seq<QueryEvent>)
      requires Valid() && run.Valid()
      modifies this, run
      ensures Valid() && run.Valid()
      ensures activeQueries == old(activeQueries)
      ensures Stream(Now(), run.State())
           == StreamAfter(run.conversationId, autoTitle, message, parse, old(Stream(Now(), run.State())), events)
    {
      var c := run.conversationId;
      ghost var start := Stream(Now(), run.State());
      var i := 0;
      while i < |events|
        invariant 0 <= i <= |events|
        invariant Valid() && run.Valid() && run.conversationId == c
        invariant activeQueries == old(activeQueries)
        invariant Stream(Now(), run.State()) == StreamAfter(c, autoTitle, message, parse, start, events[..i])
      {
        StreamSnoc(c, autoTitle, message, parse, start, events, i);
        HandleEvent(run, autoTitle, message, events[i]);
        i := i + 1;
      }
      assert events[..i] == events;
    }

    /** Serving an accepted query on `c` leaves the registry as it was and the rest of the state
        as `QueryOutcome` computes it from the state before. */
    twostate predicate Served(c: string, message: string, events: seq<QueryEvent>, ending: Ending,
                              answer: string -> SummaryReply)
      reads this
    {
      && c in old(db.conversations) && old(WellFormed(pendingPermissions))
      && activeQueries == old(activeQueries)
      && Now() == QueryOutcome(c, message, events, ending, answer, parse, old(Now()))
    }

    /** `startQuery`: refuse a missing conversation or one with a running query; otherwise store
        the user message, register the query, relay the stream, classify a thrown error, and
        always clean up. */
    method StartQuery(c: string, message: string, events: seq<QueryEvent>, ending: Ending,
                      answer: string -> SummaryReply)
      requires Valid()
      modifies this
      ensures Valid()
      ensures old(sent) <= sent
      ensures c !in old(db.conversations) ==>
        && sent == old(sent) + [Error(c, NotFound)] && db == old(db)
        && activeQueries == old(activeQueries) && pendingPermissions == old(pendingPermissions)
        && resolutions == old(resolutions)
      ensures c in old(db.conversations) && c in old(activeQueries) ==>
        && sent == old(sent) + [Error(c, AlreadyActive)] && db == old(db)
        && activeQueries == old(activeQueries) && pendingPermissions == old(pendingPermissions)
        && resolutions == old(resolutions)
      ensures c in old(db.conversations) && c !in old(activeQueries) ==> Served(c, message, events, ending, answer)
    {
      if GetConversation(db, c).None? {
        sent := sent + [Error(c, NotFound)];
      } else if c in activeQueries {
        sent := sent + [Error(c, AlreadyActive)];
      } else {
        RunQuery(c, message, events, ending, answer);
        QuerySends(c, message, events, ending, answer, parse, old(Now()));
      }
    }

    /** The accepted path of `startQuery`: store the user message, register the query, relay
        the stream, then end the query. */
    method RunQuery(c: string, message: string, events: seq<QueryEvent>, ending: Ending,
                    answer: string -> SummaryReply)
      requires Valid() && c in db.conversations && c !in activeQueries
      modifies this
      ensures Valid()
      ensures Served(c, message, events, ending, answer)
    {
      var snapshot := db.conversations[c];
      var autoTitle := ShouldAutoTitle(snapshot);
      db := InsertMessage(db, MessageRow(c, User, message, None));
      activeQueries := activeQueries[c := QueryHandle(false)];
      var run := new QueryRun(c);
      assert Stream(Now(), run.State()) == QueryStart(c, message, old(Now()));
      RunEvents(run, autoTitle, message, events);
      ghost var streamed := Now();
      assert streamed == StreamAfter(c, autoTitle, message, parse, QueryStart(c, message, old(Now())), events).relay;
      EndQuery(c, snapshot, ending, answer);
      Unregistered(old(activeQueries), c, QueryHandle(false));
    }

    /** The end of a started query: the `catch` when the stream threw, then the `finally`; the
        query is unregistered. */
    method EndQuery(c: string, snapshot: Conversation, ending: Ending, answer: string -> SummaryReply)
      requires Valid()
      modifies this
      ensures Valid()
      ensures activeQueries == old(activeQueries) - {c}
      ensures Now() == EndAfter(c, snapshot, ending, answer, old(Now()))
    {
      if ending.Thrown? {
        Catch(c, snapshot, ending.message, answer);
      }
      Finish(c);
    }
  }
}

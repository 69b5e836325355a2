/** The conversation store (src/db/index.ts) as a value: the two tables and the clock that
    `datetime('now')` reads. Each function mirrors one prepared statement the relay uses. An
    UPDATE whose WHERE clause matches no row leaves the store as it was. */
module Store {
  import opened Values
  import opened Protocol

  /** The column default of `conversations.title`. */
  const DefaultTitle: string := "New conversation"

  datatype Role = User | Assistant

  datatype ConversationStatus = ActiveConversation | ArchivedConversation

  datatype Conversation = Conversation(
    id: string,
    title: string,
    sessionId: Option<string>,
    cwd: string,
    status: ConversationStatus,
    summary: Option<string>,
    archivedAt: Option<nat>,
    createdAt: nat,
    updatedAt: nat)

  /** A row of `messages`; the serialised `content_blocks` column is kept as the block list. */
  datatype MessageRow = MessageRow(
    conversationId: string,
    role: Role,
    content: string,
    contentBlocks: Option<seq<ContentBlock>>)

  /** `messages` holds the rows in insertion order; `now` is the current time of the clock. */
  datatype Db = Db(conversations: map<string, Conversation>, messages: seq<MessageRow>, now: nat)

  /** `r` differs from `db` at most in the row of conversation `id`. */
  ghost predicate SameExcept(db: Db, r: Db, id: string) {
    && r.messages == db.messages
    && r.now == db.now
    && r.conversations.Keys == db.conversations.Keys
    && (forall other :: other in db.conversations && other != id ==> r.conversations[other] == db.conversations[other])
  }

  /** `SELECT * FROM conversations WHERE id = ?` */
  function GetConversation(db: Db, id: string): Option<Conversation> {
    if id in db.conversations then Some(db.conversations[id]) else None
  }

  /** `UPDATE conversations SET session_id = ?, updated_at = datetime('now') WHERE id = ?` */
  function UpdateSessionId(db: Db, sessionId: string, id: string): (r: Db)
    ensures SameExcept(db, r, id)
    ensures id in db.conversations ==>
      r.conversations[id] == db.conversations[id].(sessionId := Some(sessionId), updatedAt := db.now)
  {
    if id in db.conversations
    then db.(conversations := db.conversations[id := db.conversations[id].(sessionId := Some(sessionId), updatedAt := db.now)])
    else db
  }

  /** `UPDATE conversations SET title = ?, updated_at = datetime('now') WHERE id = ?` */
  function UpdateTitle(db: Db, title: string, id: string): (r: Db)
    ensures SameExcept(db, r, id)
    ensures id in db.conversations ==>
      r.conversations[id] == db.conversations[id].(title := title, updatedAt := db.now)
  {
    if id in db.conversations
    then db.(conversations := db.conversations[id := db.conversations[id].(title := title, updatedAt := db.now)])
    else db
  }

  /** `UPDATE conversations SET updated_at = datetime('now') WHERE id = ?` */
  function Touch(db: Db, id: string): (r: Db)
    ensures SameExcept(db, r, id)
    ensures id in db.conversations ==> r.conversations[id] == db.conversations[id].(updatedAt := db.now)
  {
    if id in db.conversations
    then db.(conversations := db.conversations[id := db.conversations[id].(updatedAt := db.now)])
    else db
  }

  /** `UPDATE conversations SET status = 'archived', archived_at = datetime('now'),
      updated_at = datetime('now') WHERE id = ?` */
  function MarkArchived(db: Db, id: string): (r: Db)
    ensures SameExcept(db, r, id)
    ensures id in db.conversations ==>
      r.conversations[id] == db.conversations[id].(status := ArchivedConversation, archivedAt := Some(db.now), updatedAt := db.now)
  {
    if id in db.conversations
    then db.(conversations := db.conversations[id := db.conversations[id].(
      status := ArchivedConversation, archivedAt := Some(db.now), updatedAt := db.now)])
    else db
  }

  /** `UPDATE conversations SET summary = ?, updated_at = datetime('now') WHERE id = ?` */
  function SetSummary(db: Db, summary: string, id: string): (r: Db)
    ensures SameExcept(db, r, id)
    ensures id in db.conversations ==>
      r.conversations[id] == db.conversations[id].(summary := Some(summary), updatedAt := db.now)
  {
    if id in db.conversations
    then db.(conversations := db.conversations[id := db.conversations[id].(summary := Some(summary), updatedAt := db.now)])
    else db
  }

  /** `INSERT INTO messages (id, conversation_id, role, content, content_blocks) VALUES (...)`;
      the random row id is not modelled. */
  function InsertMessage(db: Db, row: MessageRow): (r: Db)
    ensures r.conversations == db.conversations && r.now == db.now
    ensures r.messages == db.messages + [row]
  {
    db.(messages := db.messages + [row])
  }

  function RowsOf(rows: seq<MessageRow>, id: string): (r: seq<MessageRow>)
    ensures |r| <= |rows|
    ensures forall i :: 0 <= i < |r| ==> r[i].conversationId == id && r[i] in rows
    decreases |rows|
  {
    if rows == [] then []
    else if rows[0].conversationId == id then [rows[0]] + RowsOf(rows[1..], id)
    else RowsOf(rows[1..], id)
  }

  /** `SELECT * FROM messages WHERE conversation_id = ? ORDER BY created_at ASC`: the rows of
      conversation `id` in the order they were inserted. */
  function ListMessages(db: Db, id: string): (r: seq<MessageRow>)
    ensures forall i :: 0 <= i < |r| ==> r[i].conversationId == id && r[i] in db.messages
  {
    RowsOf(db.messages, id)
  }

  lemma {:induction false} RowsOfAppend(rows: seq<MessageRow>, row: MessageRow, id: string)
    ensures RowsOf(rows + [row], id) == RowsOf(rows, id) + (if row.conversationId == id then [row] else [])
    decreases |rows|
  {
    if rows == [] {
      assert RowsOf([row], id) == (if row.conversationId == id then [row] else []) + RowsOf([], id);
    } else {
      assert (rows + [row])[1..] == rows[1..] + [row];
      RowsOfAppend(rows[1..], row, id);
    }
  }

  /** A new row shows up at the end of its own conversation's listing and nowhere else. */
  lemma ListAfterInsert(db: Db, row: MessageRow, id: string)
    ensures ListMessages(InsertMessage(db, row), id)
         == ListMessages(db, id) + (if row.conversationId == id then [row] else [])
  {
    RowsOfAppend(db.messages, row, id);
  }

  /** A conversation, once archived, stays archived under every statement of this module. */
  lemma ArchivedStays(db: Db, id: string, other: string, sessionId: string, text: string, row: MessageRow)
    requires id in db.conversations && db.conversations[id].status == ArchivedConversation
    ensures UpdateSessionId(db, sessionId, other).conversations[id].status == ArchivedConversation
    ensures UpdateTitle(db, text, other).conversations[id].status == ArchivedConversation
    ensures Touch(db, other).conversations[id].status == ArchivedConversation
    ensures MarkArchived(db, other).conversations[id].status == ArchivedConversation
    ensures SetSummary(db, text, other).conversations[id].status == ArchivedConversation
    ensures InsertMessage(db, row).conversations[id].status == ArchivedConversation
  {
  }
}

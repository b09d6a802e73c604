/**
 * The persistent chat store: the `chat_sessions` and `chat_messages` tables
 * and the six operations on them. Each table is a sequence of rows in
 * insertion order. The clock stands for `datetime.now()`: every operation that
 * reads it is told how far it has moved since the last reading. `online`
 * says whether the database accepts statements; when it does not, every
 * statement raises `SQLAlchemyError`.
 */
module Session {
  import opened Wrappers
  import opened Models
  import Timestamps

  datatype SessionRow = SessionRow(id: string, name: string, createdAt: Instant)

  datatype MessageRow = MessageRow(sessionId: string, role: string, content: string, timestamp: Instant)

  /** Why an INSERT into `chat_sessions` failed: the store is down, or the id is already a primary key. */
  datatype StoreError = Unavailable | DuplicateId(id: string)

  function Ids(rows: seq<SessionRow>): (ids: seq<string>)
    ensures |ids| == |rows| && forall i :: 0 <= i < |rows| ==> ids[i] == rows[i].id
  {
    seq(|rows|, i requires 0 <= i < |rows| => rows[i].id)
  }

  predicate DistinctIds(rows: seq<SessionRow>) {
    forall i, j :: 0 <= i < j < |rows| ==> rows[i].id != rows[j].id
  }

  predicate Sorted(rows: seq<MessageRow>) {
    forall i, j :: 0 <= i < j < |rows| ==> rows[i].timestamp <= rows[j].timestamp
  }

  /** `SELECT ... FROM chat_messages WHERE session_id = :id`, in table order. */
  function MessagesOf(rows: seq<MessageRow>, id: string): seq<MessageRow> {
    if rows == [] then []
    else MessagesOf(rows[..|rows| - 1], id) + (if rows[|rows| - 1].sessionId == id then [rows[|rows| - 1]] else [])
  }

  /** The table after `DELETE FROM chat_messages WHERE session_id = :id`. */
  function WithoutMessagesOf(rows: seq<MessageRow>, id: string): seq<MessageRow> {
    if rows == [] then []
    else WithoutMessagesOf(rows[..|rows| - 1], id) + (if rows[|rows| - 1].sessionId != id then [rows[|rows| - 1]] else [])
  }

  /** The table after `DELETE FROM chat_sessions WHERE id = :id`. */
  function WithoutSession(rows: seq<SessionRow>, id: string): seq<SessionRow> {
    if rows == [] then []
    else WithoutSession(rows[..|rows| - 1], id) + (if rows[|rows| - 1].id != id then [rows[|rows| - 1]] else [])
  }

  /** The row a `WHERE id = :id` lookup finds. */
  function FindSession(rows: seq<SessionRow>, id: string): (r: Option<SessionRow>)
    ensures r.None? <==> id !in Ids(rows)
    ensures r.Some? ==> r.value in rows && r.value.id == id
  {
    if rows == [] then None
    else if rows[0].id == id then Some(rows[0])
    else
      assert Ids(rows) == [rows[0].id] + Ids(rows[1..]);
      FindSession(rows[1..], id)
  }

  function ToMessage(row: MessageRow): ChatMessage {
    ChatMessage(row.role, row.content, row.timestamp)
  }

  function ToMessages(rows: seq<MessageRow>): (ms: seq<ChatMessage>)
    ensures |ms| == |rows|
    ensures forall i :: 0 <= i < |rows| ==> ms[i] == ChatMessage(rows[i].role, rows[i].content, rows[i].timestamp)
  {
    seq(|rows|, i requires 0 <= i < |rows| => ToMessage(rows[i]))
  }

  /** The stored name: the given one, or "Session " and the creation time when it is None or empty. */
  function SessionName(name: Option<string>, createdAt: Instant): string {
    if name.None? || name.value == "" then "Session " + Timestamps.Strftime(createdAt) else name.value
  }

  class SessionStore {
    var sessions: seq<SessionRow>
    var messages: seq<MessageRow>
    var clock: Instant
    var online: bool

    /** Ids are primary keys, and message rows are stamped by a clock that never goes back. */
    ghost predicate Valid()
      reads this
    {
      DistinctIds(sessions) && Sorted(messages)
      && (forall i :: 0 <= i < |messages| ==> messages[i].timestamp <= clock)
    }

    constructor(start: Instant, up: bool)
      ensures Valid() && sessions == [] && messages == [] && clock == start && online == up
    {
      sessions := [];
      messages := [];
      clock := start;
      online := up;
    }

    /** The database going down or coming back. */
    method SetOnline(up: bool)
      requires Valid()
      modifies this
      ensures Valid() && online == up
      ensures sessions == old(sessions) && messages == old(messages) && clock == old(clock)
    {
      online := up;
    }

    /** `create_session(name)`; a failed INSERT raises ValueError, here returned as the failure. */
    method CreateSession(name: Option<string>, id: string, elapsed: nat) returns (r: Result<ChatSession, StoreError>)
      requires Valid()
      modifies this
      ensures Valid()
      ensures clock == old(clock) + elapsed && online == old(online) && messages == old(messages)
      ensures !online ==> r == Failure(Unavailable) && sessions == old(sessions)
      ensures online && id in Ids(old(sessions)) ==> r == Failure(DuplicateId(id)) && sessions == old(sessions)
      ensures online && id !in Ids(old(sessions)) ==>
                r == Success(ChatSession(id, clock, Some(SessionName(name, clock)), []))
                && sessions == old(sessions) + [SessionRow(id, SessionName(name, clock), clock)]
    {
      clock := clock + elapsed;
      var createdAt := clock;
      var chosen := SessionName(name, createdAt);
      if !online {
        return Failure(Unavailable);
      }
      if id in Ids(sessions) {
        return Failure(DuplicateId(id));
      }
      sessions := sessions + [SessionRow(id, chosen, createdAt)];
      r := Success(ChatSession(id, createdAt, Some(chosen), []));
    }

    /** `get_messages(session_id)` */
    function GetMessages(id: string): (ms: seq<ChatMessage>)
      reads this
      ensures !online ==> ms == []
      ensures online ==> |ms| == |MessagesOf(messages, id)|
    {
      if !online then [] else ToMessages(MessagesOf(messages, id))
    }

    /** `get_session(session_id)` */
    function GetSession(id: string): (s: Option<ChatSession>)
      reads this
      ensures s.None? <==> !online || id !in Ids(sessions)
      ensures s.Some? ==> s.value.id == id && s.value.messages == GetMessages(id)
                          && exists row :: row in sessions && row.id == id
                                           && s.value.name == Some(row.name) && s.value.createdAt == row.createdAt
    {
      if !online then None
      else
        match FindSession(sessions, id)
        case None => None
        case Some(row) => Some(ChatSession(row.id, row.createdAt, Some(row.name), GetMessages(id)))
    }

    /** `delete_session(session_id)`: messages first, then the session row. */
    method DeleteSession(id: string) returns (deleted: bool)
      requires Valid()
      modifies this
      ensures Valid()
      ensures clock == old(clock) && online == old(online)
      ensures !online ==> !deleted && sessions == old(sessions) && messages == old(messages)
      ensures online ==> deleted == (id in Ids(old(sessions)))
                         && messages == WithoutMessagesOf(old(messages), id)
                         && sessions == WithoutSession(old(sessions), id)
      ensures GetSession(id).None? && GetMessages(id) == []
    {
      if !online {
        return false;
      }
      WithoutMessagesSorted(messages, id);
      WithoutMessagesBounded(messages, id, clock);
      WithoutSessionDistinct(sessions, id);
      WithoutSessionIds(sessions, id);
      NoMessagesAfterDelete(messages, id);
      deleted := id in Ids(sessions);
      messages := WithoutMessagesOf(messages, id);
      sessions := WithoutSession(sessions, id);
      assert MessagesOf(messages, id) == [];
    }

    /** `list_sessions()`: every session row, each with its messages. */
    method ListSessions() returns (r: seq<ChatSession>)
      ensures !online ==> r == []
      ensures online ==> |r| == |sessions|
                         && forall i :: 0 <= i < |sessions| ==>
                              r[i] == ChatSession(sessions[i].id, sessions[i].createdAt, Some(sessions[i].name),
                                                  GetMessages(sessions[i].id))
    {
      if !online {
        return [];
      }
      r := [];
      for k := 0 to |sessions|
        invariant |r| == k
        invariant forall i :: 0 <= i < k ==>
                    r[i] == ChatSession(sessions[i].id, sessions[i].createdAt, Some(sessions[i].name),
                                        GetMessages(sessions[i].id))
      {
        var row := sessions[k];
        r := r + [ChatSession(row.id, row.createdAt, Some(row.name), GetMessages(row.id))];
      }
    }

    /** `add_message(session_id, role, content)`; the session is not checked to exist. */
    method AddMessage(sessionId: string, role: string, content: string, elapsed: nat) returns (r: Option<ChatMessage>)
      requires Valid()
      modifies this
      ensures Valid()
      ensures clock == old(clock) + elapsed && online == old(online) && sessions == old(sessions)
      ensures !online ==> r == None && messages == old(messages)
      ensures online ==> r == Some(ChatMessage(role, content, clock))
                         && messages == old(messages) + [MessageRow(sessionId, role, content, clock)]
    {
      clock := clock + elapsed;
      var timestamp := clock;
      if !online {
        return None;
      }
      messages := messages + [MessageRow(sessionId, role, content, timestamp)];
      r := Some(ChatMessage(role, content, timestamp));
    }
  }

  // ---------------------------------------------------------------------------
  // Properties of the tables

  /** `get_messages` returns exactly the rows of that session, in table order. */
  lemma {:induction false} MessagesOfExactly(rows: seq<MessageRow>, id: string)
    ensures forall m :: m in MessagesOf(rows, id) <==> m in rows && m.sessionId == id
  {
    if rows != [] {
      MessagesOfExactly(rows[..|rows| - 1], id);
      assert rows == rows[..|rows| - 1] + [rows[|rows| - 1]];
    }
  }

  /** The rows of one session keep the relative order of the table. */
  lemma {:induction false} MessagesOfSorted(rows: seq<MessageRow>, id: string)
    requires Sorted(rows)
    ensures Sorted(MessagesOf(rows, id))
  {
    if rows != [] {
      var init := rows[..|rows| - 1];
      MessagesOfSorted(init, id);
      MessagesOfExactly(init, id);
      var last := rows[|rows| - 1];
      var r := MessagesOf(rows, id);
      forall i, j | 0 <= i < j < |r| ensures r[i].timestamp <= r[j].timestamp {
        if j == |r| - 1 && last.sessionId == id {
          assert r[i] in MessagesOf(init, id);
        }
      }
    }
  }

  /**
   * Rows are appended in clock order, so a session's rows in table order are
   * already in timestamp order; among rows with equal timestamps the model
   * keeps table order, which `ORDER BY timestamp` does not promise.
   */
  lemma GetMessagesOrdered(store: SessionStore, id: string)
    requires store.Valid()
    ensures var ms := store.GetMessages(id);
            forall i, j :: 0 <= i < j < |ms| ==> ms[i].timestamp <= ms[j].timestamp
  {
    MessagesOfSorted(store.messages, id);
  }

  /** A stored row shows up as the last message of its own session and nowhere else. */
  lemma AppendedMessage(rows: seq<MessageRow>, row: MessageRow, id: string)
    ensures MessagesOf(rows + [row], id) ==
              MessagesOf(rows, id) + (if row.sessionId == id then [row] else [])
  {
    assert (rows + [row])[..|rows|] == rows;
  }

  lemma {:induction false} WithoutMessagesExactly(rows: seq<MessageRow>, id: string)
    ensures forall m :: m in WithoutMessagesOf(rows, id) <==> m in rows && m.sessionId != id
  {
    if rows != [] {
      WithoutMessagesExactly(rows[..|rows| - 1], id);
      assert rows == rows[..|rows| - 1] + [rows[|rows| - 1]];
    }
  }

  /** Deleting a session's messages leaves none of them ... */
  lemma {:induction false} NoMessagesAfterDelete(rows: seq<MessageRow>, id: string)
    ensures MessagesOf(WithoutMessagesOf(rows, id), id) == []
  {
    if rows != [] {
      var init := rows[..|rows| - 1];
      var last := rows[|rows| - 1];
      NoMessagesAfterDelete(init, id);
      assert WithoutMessagesOf(rows, id) == WithoutMessagesOf(init, id) + (if last.sessionId != id then [last] else []);
      if last.sessionId != id {
        AppendedMessage(WithoutMessagesOf(init, id), last, id);
        assert MessagesOf(WithoutMessagesOf(rows, id), id) == MessagesOf(WithoutMessagesOf(init, id), id) + [];
      } else {
        assert WithoutMessagesOf(rows, id) == WithoutMessagesOf(init, id);
      }
    }
  }

  /** ... and every other session's messages as they were. */
  lemma {:induction false} OtherMessagesAfterDelete(rows: seq<MessageRow>, id: string, other: string)
    requires other != id
    ensures MessagesOf(WithoutMessagesOf(rows, id), other) == MessagesOf(rows, other)
  {
    if rows != [] {
      var init := rows[..|rows| - 1];
      var last := rows[|rows| - 1];
      OtherMessagesAfterDelete(init, id, other);
      assert WithoutMessagesOf(rows, id) == WithoutMessagesOf(init, id) + (if last.sessionId != id then [last] else []);
      assert MessagesOf(rows, other) == MessagesOf(init, other) + (if last.sessionId == other then [last] else []);
      if last.sessionId != id {
        AppendedMessage(WithoutMessagesOf(init, id), last, other);
      } else {
        assert WithoutMessagesOf(rows, id) == WithoutMessagesOf(init, id);
        assert MessagesOf(rows, other) == MessagesOf(init, other);
      }
    }
  }

  lemma {:induction false} WithoutMessagesSorted(rows: seq<MessageRow>, id: string)
    requires Sorted(rows)
    ensures Sorted(WithoutMessagesOf(rows, id))
  {
    if rows != [] {
      var init := rows[..|rows| - 1];
      WithoutMessagesSorted(init, id);
      WithoutMessagesExactly(init, id);
      var r := WithoutMessagesOf(rows, id);
      forall i, j | 0 <= i < j < |r| ensures r[i].timestamp <= r[j].timestamp {
        if j == |r| - 1 && rows[|rows| - 1].sessionId != id {
          assert r[i] in WithoutMessagesOf(init, id);
        }
      }
    }
  }

  lemma WithoutMessagesBounded(rows: seq<MessageRow>, id: string, clock: Instant)
    requires forall i :: 0 <= i < |rows| ==> rows[i].timestamp <= clock
    ensures var r := WithoutMessagesOf(rows, id);
            forall i :: 0 <= i < |r| ==> r[i].timestamp <= clock
  {
    WithoutMessagesExactly(rows, id);
    var r := WithoutMessagesOf(rows, id);
    forall i | 0 <= i < |r| ensures r[i].timestamp <= clock {
      assert r[i] in rows;
    }
  }

  /** After the DELETE no session row has the id, and every other row is kept. */
  lemma {:induction false} WithoutSessionIds(rows: seq<SessionRow>, id: string)
    ensures forall s :: s in WithoutSession(rows, id) <==> s in rows && s.id != id
    ensures id !in Ids(WithoutSession(rows, id))
  {
    if rows != [] {
      WithoutSessionIds(rows[..|rows| - 1], id);
      assert rows == rows[..|rows| - 1] + [rows[|rows| - 1]];
    }
    var r := WithoutSession(rows, id);
    if id in Ids(r) {
      var k :| 0 <= k < |r| && Ids(r)[k] == id;
      assert r[k] in r;
    }
  }

  lemma {:induction false} WithoutSessionDistinct(rows: seq<SessionRow>, id: string)
    requires DistinctIds(rows)
    ensures DistinctIds(WithoutSession(rows, id))
  {
    if rows != [] {
      var init := rows[..|rows| - 1];
      var last := rows[|rows| - 1];
      WithoutSessionDistinct(init, id);
      WithoutSessionIds(init, id);
      var r := WithoutSession(rows, id);
      forall i, j | 0 <= i < j < |r| ensures r[i].id != r[j].id {
        if j == |r| - 1 && last.id != id {
          assert r[i] in init;
          var k :| 0 <= k < |init| && init[k] == r[i];
        }
      }
    }
  }
}

/**
 * The message service over an in-memory `messages` table. The table is append-only:
 * `CreateMessage` inserts one row with a fresh id; the list query filters by
 * conversation and orders by creation time. Whether a store call fails is an oracle
 * argument (`storeOk`); its causes are out of scope.
 */
module MessageStore {
  import opened ChatTypes
  import opened Ordering

  function MessageIds(rows: seq<Message>): (ids: seq<Id>)
    ensures |ids| == |rows|
    ensures forall i :: 0 <= i < |rows| ==> ids[i] == rows[i].id
  {
    if rows == [] then [] else [rows[0].id] + MessageIds(rows[1..])
  }

  /** The row `createMessage` inserts: a fresh id, the given fields, the store's clock. */
  function NewMessage(rows: seq<Message>, conversationId: Id, content: string, role: Role, now: Timestamp): (m: Message)
    ensures forall i :: 0 <= i < |rows| ==> rows[i].id != m.id
    ensures m.conversationId == conversationId && m.content == content && m.role == role
  {
    var id := FreshId(MessageIds(rows));
    assert forall i :: 0 <= i < |rows| ==> MessageIds(rows)[i] == rows[i].id;
    Message(id, conversationId, content, role, now)
  }

  /** `.eq('conversation_id', id)`: the rows of one conversation, in table order. */
  function InConversation(rows: seq<Message>, conversationId: Id): (r: seq<Message>)
    ensures forall m :: multiset(r)[m] == if m.conversationId == conversationId then multiset(rows)[m] else 0
  {
    if rows == [] then []
    else
      assert rows == [rows[0]] + rows[1..];
      var tail := InConversation(rows[1..], conversationId);
      if rows[0].conversationId == conversationId then [rows[0]] + tail else tail
  }

  function CreatedAt(m: Message): int
  {
    m.createdAt
  }

  /**
   * The list query of `getConversationMessages`: exactly the rows of the conversation
   * (with their multiplicities), in non-decreasing creation time.
   */
  function ConversationMessages(rows: seq<Message>, conversationId: Id): (r: seq<Message>)
    ensures forall m :: multiset(r)[m] == if m.conversationId == conversationId then multiset(rows)[m] else 0
    ensures forall i, j :: 0 <= i < j < |r| ==> r[i].createdAt <= r[j].createdAt
  {
    var r := SortBy(InConversation(rows, conversationId), CreatedAt);
    assert SortedBy(r, CreatedAt);
    r
  }

  /** `getConversationMessages`, which throws when the store reports an error. */
  function GetConversationMessages(rows: seq<Message>, conversationId: Id, storeOk: bool): (r: Result<seq<Message>>)
    ensures storeOk <==> r.Ok?
    ensures r.Err? ==> r.error == "Failed to fetch messages"
  {
    if storeOk then Ok(ConversationMessages(rows, conversationId)) else Err("Failed to fetch messages")
  }

  /** Every message listed for a conversation belongs to it and is stored. */
  lemma ListedMessagesBelong(rows: seq<Message>, conversationId: Id, m: Message)
    requires m in ConversationMessages(rows, conversationId)
    ensures m in rows && m.conversationId == conversationId
  {
    var r := ConversationMessages(rows, conversationId);
    assert multiset(r)[m] > 0;
  }

  /** A message stored for another conversation never shows up in the listing. */
  lemma InsertElsewhereInvisible(rows: seq<Message>, conversationId: Id, m: Message)
    requires m.conversationId != conversationId
    ensures multiset(ConversationMessages(rows + [m], conversationId)) == multiset(ConversationMessages(rows, conversationId))
  {
    var a := ConversationMessages(rows + [m], conversationId);
    var b := ConversationMessages(rows, conversationId);
    forall x ensures multiset(a)[x] == multiset(b)[x] {
      assert multiset(rows + [m]) == multiset(rows) + multiset{m};
    }
  }

  /** The `messages` table. */
  class MessageService {
    var rows: seq<Message>

    constructor (initial: seq<Message>)
      ensures rows == initial
    {
      rows := initial;
    }

    /**
     * `createMessage`: one row with a fresh id, the given conversation, content and role
     * is appended and returned; when the store fails nothing is added and the call throws.
     */
    method CreateMessage(conversationId: Id, content: string, role: Role, now: Timestamp, storeOk: bool)
      returns (r: Result<Message>)
      modifies this
      ensures storeOk ==> r == Ok(NewMessage(old(rows), conversationId, content, role, now))
      ensures storeOk ==> rows == old(rows) + [r.value]
      ensures !storeOk ==> r == Err("Failed to create message") && rows == old(rows)
    {
      if !storeOk {
        return Err("Failed to create message");
      }
      var m := NewMessage(rows, conversationId, content, role, now);
      rows := rows + [m];
      r := Ok(m);
    }
  }
}

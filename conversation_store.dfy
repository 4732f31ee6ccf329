/**
 * The conversation service over an in-memory `conversations` table: insert with a
 * fresh id, a lookup filtered by id and owner, the owner's list ordered by update
 * time (newest first), a title update that refreshes the update time, and delete by id.
 * Whether a store call fails is an oracle argument (`storeOk`).
 */
module ConversationStore {
  import opened ChatTypes
  import opened Ordering

  const DefaultTitle: string := "New Conversation"

  function ConversationIds(rows: seq<Conversation>): (ids: seq<Id>)
    ensures |ids| == |rows|
    ensures forall i :: 0 <= i < |rows| ==> ids[i] == rows[i].id
  {
    if rows == [] then [] else [rows[0].id] + ConversationIds(rows[1..])
  }

  /** Ids are a primary key: no two rows share one. */
  predicate UniqueIds(rows: seq<Conversation>)
  {
    forall i, j :: 0 <= i < j < |rows| ==> rows[i].id != rows[j].id
  }

  /**
   * The row `createConversation` inserts: a fresh id, the caller as owner, the given
   * title or "New Conversation" when it is empty, both timestamps at the store's clock.
   */
  function NewConversation(rows: seq<Conversation>, userId: Id, title: string, now: Timestamp): (c: Conversation)
    ensures forall i :: 0 <= i < |rows| ==> rows[i].id != c.id
    ensures c.userId == userId
    ensures c.title == (if title == "" then DefaultTitle else title)
  {
    var id := FreshId(ConversationIds(rows));
    assert forall i :: 0 <= i < |rows| ==> ConversationIds(rows)[i] == rows[i].id;
    Conversation(id, userId, if title == "" then DefaultTitle else title, now, now)
  }

  /** The first row with this id and this owner. */
  function FindOwned(rows: seq<Conversation>, id: Id, userId: Id): (r: Option<Conversation>)
    ensures r.Some? ==> r.value in rows && r.value.id == id && r.value.userId == userId
    ensures r.None? <==> forall i :: 0 <= i < |rows| ==> !(rows[i].id == id && rows[i].userId == userId)
  {
    if rows == [] then None
    else if rows[0].id == id && rows[0].userId == userId then Some(rows[0])
    else
      var r := FindOwned(rows[1..], id, userId);
      assert forall i :: 1 <= i < |rows| ==> rows[i] == rows[1..][i - 1];
      r
  }

  /**
   * `getConversation`: the row only when both its id and its owner match; `null` when
   * there is none and on any store error.
   */
  function GetConversation(rows: seq<Conversation>, id: Id, userId: Id, storeOk: bool): (r: Option<Conversation>)
    ensures r.Some? ==> storeOk && r.value in rows && r.value.id == id && r.value.userId == userId
    ensures r.None? <==> !storeOk || forall i :: 0 <= i < |rows| ==> !(rows[i].id == id && rows[i].userId == userId)
  {
    if storeOk then FindOwned(rows, id, userId) else None
  }

  /** `.eq('user_id', userId)`: the caller's rows, in table order. */
  function OwnedBy(rows: seq<Conversation>, userId: Id): (r: seq<Conversation>)
    ensures forall c :: multiset(r)[c] == if c.userId == userId then multiset(rows)[c] else 0
  {
    if rows == [] then []
    else
      assert rows == [rows[0]] + rows[1..];
      var tail := OwnedBy(rows[1..], userId);
      if rows[0].userId == userId then [rows[0]] + tail else tail
  }

  function NewestFirst(c: Conversation): int
  {
    0 - c.updatedAt as int
  }

  /** The list query of `getUserConversations`: exactly the caller's rows, newest update first. */
  function UserConversations(rows: seq<Conversation>, userId: Id): (r: seq<Conversation>)
    ensures forall c :: multiset(r)[c] == if c.userId == userId then multiset(rows)[c] else 0
    ensures forall i, j :: 0 <= i < j < |r| ==> r[i].updatedAt >= r[j].updatedAt
  {
    var r := SortBy(OwnedBy(rows, userId), NewestFirst);
    assert SortedBy(r, NewestFirst);
    r
  }

  /** `getUserConversations`, which throws when the store reports an error. */
  function GetUserConversations(rows: seq<Conversation>, userId: Id, storeOk: bool): (r: Result<seq<Conversation>>)
    ensures storeOk <==> r.Ok?
    ensures r.Err? ==> r.error == "Failed to fetch conversations"
  {
    if storeOk then Ok(UserConversations(rows, userId)) else Err("Failed to fetch conversations")
  }

  /** The table after `update({title, updated_at}).eq('id', id)`: no ownership check. */
  function Retitled(rows: seq<Conversation>, id: Id, title: string, now: Timestamp): (r: seq<Conversation>)
    ensures |r| == |rows|
    ensures forall i :: 0 <= i < |rows| && rows[i].id != id ==> r[i] == rows[i]
    ensures forall i :: 0 <= i < |rows| && rows[i].id == id ==> r[i] == rows[i].(title := title, updatedAt := now)
  {
    if rows == [] then []
    else
      var head := if rows[0].id == id then rows[0].(title := title, updatedAt := now) else rows[0];
      [head] + Retitled(rows[1..], id, title, now)
  }

  /** The table after `delete().eq('id', id)`. */
  function Without(rows: seq<Conversation>, id: Id): (r: seq<Conversation>)
    ensures forall c :: multiset(r)[c] == if c.id == id then 0 else multiset(rows)[c]
  {
    if rows == [] then []
    else
      assert rows == [rows[0]] + rows[1..];
      var tail := Without(rows[1..], id);
      if rows[0].id == id then tail else [rows[0]] + tail
  }

  /** A created conversation is found by its owner, and by nobody else. */
  lemma CreatedIsOwned(rows: seq<Conversation>, userId: Id, title: string, now: Timestamp, other: Id)
    ensures var c := NewConversation(rows, userId, title, now);
            FindOwned(rows + [c], c.id, userId) == Some(c) &&
            (other != userId ==> FindOwned(rows + [c], c.id, other) == None)
  {
    var c := NewConversation(rows, userId, title, now);
    FindAfterFresh(rows, c, userId);
    FindAfterFresh(rows, c, other);
  }

  lemma {:induction false} FindAfterFresh(rows: seq<Conversation>, c: Conversation, userId: Id)
    requires forall i :: 0 <= i < |rows| ==> rows[i].id != c.id
    ensures FindOwned(rows + [c], c.id, userId) == if c.userId == userId then Some(c) else None
  {
    if rows != [] {
      assert (rows + [c])[1..] == rows[1..] + [c];
      FindAfterFresh(rows[1..], c, userId);
    }
  }

  /** After a title update the owner reads the new title and update time; other ids read as before. */
  lemma {:induction false} RetitleThenGet(rows: seq<Conversation>, id: Id, title: string, now: Timestamp, key: Id, userId: Id)
    ensures FindOwned(Retitled(rows, id, title, now), key, userId) ==
            match FindOwned(rows, key, userId)
            case None => None
            case Some(c) => Some(if key == id then c.(title := title, updatedAt := now) else c)
  {
    if rows != [] {
      RetitleThenGet(rows[1..], id, title, now, key, userId);
    }
  }

  /** After a delete the id is gone for every owner, and every other id reads as before. */
  lemma {:induction false} DeleteThenGet(rows: seq<Conversation>, id: Id, key: Id, userId: Id)
    ensures FindOwned(Without(rows, id), key, userId) == if key == id then None else FindOwned(rows, key, userId)
  {
    if rows != [] {
      DeleteThenGet(rows[1..], id, key, userId);
    }
  }

  /** The `conversations` table. */
  class ConversationService {
    var rows: seq<Conversation>

    ghost predicate Valid()
      reads this
    {
      UniqueIds(rows)
    }

    constructor (initial: seq<Conversation>)
      requires UniqueIds(initial)
      ensures Valid() && rows == initial
    {
      rows := initial;
    }

    /** `createConversation`: appends and returns one fresh row; a store failure adds nothing and throws. */
    method CreateConversation(userId: Id, title: string, now: Timestamp, storeOk: bool) returns (r: Result<Conversation>)
      requires Valid()
      modifies this
      ensures Valid()
      ensures storeOk ==> r == Ok(NewConversation(old(rows), userId, title, now)) && rows == old(rows) + [r.value]
      ensures !storeOk ==> r == Err("Failed to create conversation") && rows == old(rows)
    {
      if !storeOk {
        return Err("Failed to create conversation");
      }
      var c := NewConversation(rows, userId, title, now);
      rows := rows + [c];
      r := Ok(c);
    }

    /** `updateConversationTitle`: retitles the row with that id, whoever owns it. */
    method UpdateConversationTitle(id: Id, title: string, now: Timestamp, storeOk: bool) returns (r: Outcome)
      requires Valid()
      modifies this
      ensures Valid()
      ensures storeOk ==> r == Pass && rows == Retitled(old(rows), id, title, now)
      ensures !storeOk ==> r == Fail("Failed to update conversation title") && rows == old(rows)
    {
      if !storeOk {
        return Fail("Failed to update conversation title");
      }
      rows := Retitled(rows, id, title, now);
      r := Pass;
    }

    /** `deleteConversation`: removes the row with that id. */
    method DeleteConversation(id: Id, storeOk: bool) returns (r: Outcome)
      requires Valid()
      modifies this
      ensures Valid()
      ensures storeOk ==> r == Pass && rows == Without(old(rows), id)
      ensures !storeOk ==> r == Fail("Failed to delete conversation " + id) && rows == old(rows)
    {
      if !storeOk {
        return Fail("Failed to delete conversation " + id);
      }
      WithoutKeepsUnique(rows, id);
      rows := Without(rows, id);
      r := Pass;
    }
  }

  lemma {:induction false} WithoutKeepsUnique(rows: seq<Conversation>, id: Id)
    requires UniqueIds(rows)
    ensures UniqueIds(Without(rows, id))
  {
    if rows != [] {
      WithoutKeepsUnique(rows[1..], id);
      var tail := Without(rows[1..], id);
      forall c | c in tail ensures c.id != rows[0].id {
        assert multiset(tail)[c] > 0;
        assert c in rows[1..];
      }
    }
  }
}

/**
 * The browser side of one chat turn (`sendMessage` of the `useChatStream` hook): an
 * optimistic user message, the incremental decoder over the response body, the
 * per-event updaters of the message list and of the conversations cache, the catch
 * path and the `finally` clean-up.
 *
 * The updaters are pure functions over the previous list, as in the source; the read
 * loop is the method `ChatStream.SendMessage`, proved equal to the turn specification
 * `ClientTurn`.
 */
module ChatStream {
  import opened ChatTypes
  import opened EventStream
  import MessageStore

  const TempConversation: string := "temp-new-conversation"
  const Unknown: string := "unknown"
  const NewChatTitle: string := "New Chat"
  const UnexpectedError: string := "I'm sorry, an unexpected error occurred. Please try again."

  /**
   * A row of the `['conversations']` cache. Rows fetched from the server have no
   * `isTitleGenerating`; absent and `false` are both falsy and are not told apart.
   */
  datatype CachedConversation = CachedConversation(
    id: Id, userId: Id, title: string, createdAt: Timestamp, updatedAt: Timestamp, isTitleGenerating: bool)

  /** The query keys the turn invalidates. */
  datatype QueryKey = ConversationsKey | MessagesKey(conversationId: Option<Id>)

  /**
   * What the turn changes: the hook's `messages` and `isAITyping`, the conversations
   * cache (`None` while it holds no data) and the set of invalidated query keys.
   */
  datatype View = View(messages: seq<Message>, typing: bool, conversations: Option<seq<CachedConversation>>,
                       stale: set<QueryKey>)

  /**
   * What the turn's closures read: the arguments, the route's conversation id
   * (`currentConvIdRef.current`, fixed during the turn), the provisional message's id
   * and the clock.
   */
  datatype Call = Call(content: string, conversationId: Option<Id>, route: Option<Id>, tempId: Id, now: Timestamp)

  /** The variables of the turn that the event handlers update: the view and `finalConversationId`. */
  datatype Progress = Progress(view: View, final: Option<Id>)

  // ---------------------------------------------------------------------------
  // Message-list updaters
  // ---------------------------------------------------------------------------

  /** The provisional user message: a fresh id, the typed content, the conversation if known. */
  function Provisional(ms: seq<Message>, content: string, conversationId: Option<Id>, now: Timestamp): (m: Message)
    ensures forall i :: 0 <= i < |ms| ==> ms[i].id != m.id
    ensures m.content == content && m.role == User
    ensures m.conversationId == if Truthy(conversationId) then conversationId.value else TempConversation
  {
    var ids := MessageStore.MessageIds(ms);
    var id := FreshId(ids);
    assert forall i :: 0 <= i < |ms| ==> ids[i] == ms[i].id;
    Message(id, if Truthy(conversationId) then conversationId.value else TempConversation, content, User, now)
  }

  /** `filter(msg => msg.id !== id)`. */
  function WithoutId(ms: seq<Message>, id: Id): (r: seq<Message>)
    ensures |r| <= |ms|
  {
    if ms == [] then []
    else
      var tail := WithoutId(ms[1..], id);
      if ms[0].id == id then tail else [ms[0]] + tail
  }

  /** The filter keeps exactly the messages with another id. */
  lemma {:induction false} WithoutIdKeeps(ms: seq<Message>, id: Id, m: Message)
    ensures m in WithoutId(ms, id) <==> m in ms && m.id != id
  {
    if ms != [] {
      WithoutIdKeeps(ms[1..], id, m);
      assert m in ms <==> m == ms[0] || m in ms[1..];
    }
  }

  /** Filtering distributes over concatenation: the kept messages keep their relative order. */
  lemma {:induction false} WithoutIdAppend(a: seq<Message>, b: seq<Message>, id: Id)
    ensures WithoutId(a + b, id) == WithoutId(a, id) + WithoutId(b, id)
  {
    if a == [] {
      assert a + b == b;
    } else {
      assert (a + b)[1..] == a[1..] + b;
      WithoutIdAppend(a[1..], b, id);
    }
  }

  /** Filtering out an id that no message has changes nothing. */
  lemma {:induction false} WithoutAbsentId(ms: seq<Message>, id: Id)
    requires forall i :: 0 <= i < |ms| ==> ms[i].id != id
    ensures WithoutId(ms, id) == ms
  {
    if ms != [] {
      WithoutAbsentId(ms[1..], id);
    }
  }

  /** The assistant message a `message` event with this id extends. */
  predicate IsReplyTo(m: Message, id: Id)
  {
    m.id == id && m.role == Assistant
  }

  predicate HasReply(ms: seq<Message>, id: Id)
  {
    exists i :: 0 <= i < |ms| && IsReplyTo(ms[i], id)
  }

  /** The `map` of the `message` updater: every assistant message with the id gets the chunk appended. */
  function ExtendReplies(ms: seq<Message>, id: Id, chunk: string): (r: seq<Message>)
    ensures |r| == |ms|
    ensures forall i :: 0 <= i < |ms| ==>
              r[i] == if IsReplyTo(ms[i], id) then ms[i].(content := ms[i].content + chunk) else ms[i]
  {
    if ms == [] then []
    else
      var head := if IsReplyTo(ms[0], id) then ms[0].(content := ms[0].content + chunk) else ms[0];
      [head] + ExtendReplies(ms[1..], id, chunk)
  }

  /**
   * The `message` updater: with an assistant message of that id the chunk is appended
   * to it in place and nothing else changes; without one an assistant message holding
   * just the chunk is appended at the end.
   */
  function AddChunk(ms: seq<Message>, id: Id, chunk: string, conversationId: Id, now: Timestamp): (r: seq<Message>)
    ensures HasReply(ms, id) ==> |r| == |ms|
    ensures HasReply(ms, id) ==>
              forall i :: 0 <= i < |ms| ==>
                r[i] == if IsReplyTo(ms[i], id) then ms[i].(content := ms[i].content + chunk) else ms[i]
    ensures !HasReply(ms, id) ==> r == ms + [Message(id, conversationId, chunk, Assistant, now)]
  {
    if HasReply(ms, id) then ExtendReplies(ms, id, chunk)
    else ms + [Message(id, conversationId, chunk, Assistant, now)]
  }

  /** `a || b || c || 'unknown'` for the conversation of a message built on the client. */
  function FirstTruthy(a: Option<Id>, b: Option<Id>, c: Option<Id>): (r: Id)
    ensures Truthy(a) ==> r == a.value
    ensures !Truthy(a) && Truthy(b) ==> r == b.value
    ensures !Truthy(a) && !Truthy(b) && Truthy(c) ==> r == c.value
    ensures !Truthy(a) && !Truthy(b) && !Truthy(c) ==> r == Unknown
  {
    var x := Or(a, Or(b, c));
    if Truthy(x) then x.value else Unknown
  }

  /**
   * The error updater (of an `error` event and of the catch): the provisional message
   * is dropped and one assistant message with a fresh id (`uuidv4()`, so neither the
   * provisional id nor the id of any message on screen) and the text is appended.
   */
  function ReplaceWithNotice(ms: seq<Message>, tempId: Id, text: string, conversationId: Id, now: Timestamp): (r: seq<Message>)
    ensures |r| == |WithoutId(ms, tempId)| + 1
    ensures r[..|r| - 1] == WithoutId(ms, tempId)
    ensures var m := r[|r| - 1];
            m.content == text && m.role == Assistant && m.conversationId == conversationId &&
            m.id != tempId && (forall i :: 0 <= i < |ms| ==> ms[i].id != m.id)
  {
    var kept := WithoutId(ms, tempId);
    var used := MessageStore.MessageIds(ms) + [tempId];
    var id := FreshId(used);
    assert forall i :: 0 <= i < |ms| ==> used[i] == ms[i].id;
    assert used[|ms|] == tempId;
    var r := kept + [Message(id, conversationId, text, Assistant, now)];
    assert r[..|r| - 1] == kept;
    r
  }

  /**
   * A notice survives a later notice of the same turn: the second filter finds no
   * provisional message left, so it only appends (an `error` event followed by a read
   * that throws shows both texts).
   */
  lemma NoticeSurvivesNotice(ms: seq<Message>, tempId: Id, first: string, cid: Id, now: Timestamp,
                             second: string, cid': Id, now': Timestamp)
    ensures var r1 := ReplaceWithNotice(ms, tempId, first, cid, now);
            var r2 := ReplaceWithNotice(r1, tempId, second, cid', now');
            |r2| == |r1| + 1 && r2[..|r1|] == r1 && r2[|r1|].content == second
  {
    var r1 := ReplaceWithNotice(ms, tempId, first, cid, now);
    var kept := WithoutId(ms, tempId);
    forall i | 0 <= i < |r1| ensures r1[i].id != tempId {
      if i < |r1| - 1 {
        assert r1[i] == r1[..|r1| - 1][i];
        WithoutIdKeeps(ms, tempId, r1[i]);
      }
    }
    WithoutAbsentId(r1, tempId);
  }

  // ---------------------------------------------------------------------------
  // Conversations-cache updaters
  // ---------------------------------------------------------------------------

  /** The entry `initial` puts in front of the cache for a conversation created by this turn. */
  function Placeholder(id: Id, now: Timestamp): CachedConversation
  {
    CachedConversation(id, "", NewChatTitle, now, now, true)
  }

  /** `oldConversations ? [newConversation, ...oldConversations] : [newConversation]`. */
  function Prepend(cache: Option<seq<CachedConversation>>, c: CachedConversation): (r: Option<seq<CachedConversation>>)
    ensures r.Some? && |r.value| >= 1 && r.value[0] == c
    ensures r.value[1..] == if cache.Some? then cache.value else []
  {
    Some([c] + if cache.Some? then cache.value else [])
  }

  /** The `map` of the `titleUpdate` updater: the matching rows get the title and stop generating. */
  function TitleUpdated(cs: seq<CachedConversation>, id: Id, title: string): (r: seq<CachedConversation>)
    ensures |r| == |cs|
    ensures forall i :: 0 <= i < |cs| ==>
              r[i] == if cs[i].id == id then cs[i].(title := title, isTitleGenerating := false) else cs[i]
  {
    if cs == [] then []
    else
      var head := if cs[0].id == id then cs[0].(title := title, isTitleGenerating := false) else cs[0];
      [head] + TitleUpdated(cs[1..], id, title)
  }

  /** The `titleUpdate` updater; an absent cache becomes the empty list. */
  function RetitleCache(cache: Option<seq<CachedConversation>>, id: Id, title: string): (r: Option<seq<CachedConversation>>)
    ensures cache.None? ==> r == Some([])
    ensures cache.Some? ==> r == Some(TitleUpdated(cache.value, id, title))
  {
    match cache
    case None => Some([])
    case Some(cs) => Some(TitleUpdated(cs, id, title))
  }

  // ---------------------------------------------------------------------------
  // Dispatch of one decoded event
  // ---------------------------------------------------------------------------

  /** The `initial` branch: the stored user message replaces the provisional one. */
  function OnInitial(p: Progress, c: Call, d: EventData): Progress
    requires d.userMessage.Some?
  {
    var final := if Truthy(d.conversationId) then d.conversationId else None;
    var v := p.view;
    var conversations :=
      if !Truthy(c.conversationId) && final.Some? then Prepend(v.conversations, Placeholder(final.value, c.now))
      else v.conversations;
    Progress(v.(messages := WithoutId(v.messages, c.tempId) + [d.userMessage.value],
                conversations := conversations,
                stale := v.stale + {ConversationsKey}),
             final)
  }

  /** The `message` branch, for a truthy chunk: typing stops; a chunk without an id is skipped. */
  function OnChunk(p: Progress, c: Call, d: EventData): Progress
    requires Truthy(d.chunk)
  {
    var v := p.view.(typing := false);
    if !Truthy(d.id) then p.(view := v)
    else
      var cid := FirstTruthy(d.conversationId, p.final, c.route);
      p.(view := v.(messages := AddChunk(v.messages, d.id.value, d.chunk.value, cid, c.now)))
  }

  /** The `error` branch, for a truthy text: typing stops and the text replaces the provisional message. */
  function OnError(p: Progress, c: Call, d: EventData): Progress
    requires Truthy(d.content)
  {
    var cid := FirstTruthy(d.conversationId, p.final, c.route);
    var v := p.view;
    p.(view := v.(typing := false,
                  messages := ReplaceWithNotice(v.messages, c.tempId, d.content.value, cid, c.now),
                  stale := v.stale + {ConversationsKey}))
  }

  /** The `titleUpdate` branch, for a truthy id and title. */
  function OnTitleUpdate(p: Progress, d: EventData): Progress
    requires Truthy(d.conversationId) && Truthy(d.newTitle)
  {
    p.(view := p.view.(conversations := RetitleCache(p.view.conversations, d.conversationId.value, d.newTitle.value)))
  }

  /**
   * The `if / else if` chain over a dispatched block. A branch whose guard on the
   * payload fails falls through to the next test, which then fails on the type:
   * such an event, `done`, and an unknown type change nothing.
   */
  function Apply(p: Progress, c: Call, kind: string, d: EventData): Progress
  {
    if kind == EventName(InitialEvent) && d.userMessage.Some? then OnInitial(p, c, d)
    else if kind == EventName(MessageEvent) && Truthy(d.chunk) then OnChunk(p, c, d)
    else if kind == EventName(ErrorEvent) && Truthy(d.content) then OnError(p, c, d)
    else if kind == EventName(DoneEvent) then p
    else if kind == EventName(TitleUpdateEvent) && Truthy(d.conversationId) && Truthy(d.newTitle) then OnTitleUpdate(p, d)
    else p
  }

  /** One block of the inner loop: scanned, then dispatched when it has a type and data. */
  function Deliver(p: Progress, c: Call, block: string, parse: string -> Parsed): Progress
  {
    match ParseBlock(block, parse)
    case None => p
    case Some((kind, d)) => Apply(p, c, kind, d)
  }

  /** The blocks of the turn, delivered in order. */
  function Run(p: Progress, c: Call, blocks: seq<string>, parse: string -> Parsed): Progress
  {
    if blocks == [] then p
    else Deliver(Run(p, c, blocks[..|blocks| - 1], parse), c, blocks[|blocks| - 1], parse)
  }

  // ---------------------------------------------------------------------------
  // The turn
  // ---------------------------------------------------------------------------

  /**
   * The response as the read loop sees it: refused (the fetch throws, the status is
   * not ok or there is no body reader), or the decoded pieces it yields, after which
   * it either ends or a read throws.
   */
  datatype Transport = Refused | Opened(pieces: seq<string>, broken: bool)

  /** Before the request: typing starts and the provisional message is appended. */
  function Start(v: View, temp: Message): View
  {
    v.(typing := true, messages := v.messages + [temp])
  }

  /** The catch: typing stops and a fixed notice replaces the provisional message. */
  function Catch(v: View, c: Call): View
  {
    v.(typing := false,
       messages := ReplaceWithNotice(v.messages, c.tempId, UnexpectedError,
                                     FirstTruthy(c.conversationId, c.route, None), c.now),
       stale := v.stale + {ConversationsKey})
  }

  /** The `finally`: typing stops and the messages of the conversation are invalidated. */
  function Finally(v: View, c: Call, final: Option<Id>): View
  {
    var first := if final.Some? then {MessagesKey(final)}
                 else if Truthy(c.conversationId) then {MessagesKey(c.conversationId)}
                 else {};
    v.(typing := false, stale := v.stale + first + {MessagesKey(c.route)})
  }

  /** The whole turn from the view `v`, with `parse` standing for `JSON.parse`. */
  function ClientTurn(v: View, content: string, conversationId: Option<Id>, route: Option<Id>,
                      transport: Transport, parse: string -> Parsed, now: Timestamp): View
  {
    var temp := Provisional(v.messages, content, conversationId, now);
    var c := Call(content, conversationId, route, temp.id, now);
    var v1 := Start(v, temp);
    match transport
    case Refused => Finally(Catch(v1, c), c, None)
    case Opened(pieces, broken) =>
      var p := Run(Progress(v1, None), c, SplitBlocks(Concat(pieces)).blocks, parse);
      Finally(if broken then Catch(p.view, c) else p.view, c, p.final)
  }

  /** Delivering blocks one after another is delivering their concatenation. */
  lemma {:induction false} RunAppend(p: Progress, c: Call, a: seq<string>, b: seq<string>, parse: string -> Parsed)
    ensures Run(p, c, a + b, parse) == Run(Run(p, c, a, parse), c, b, parse)
  {
    if b == [] {
      assert a + b == a;
    } else {
      var init := b[..|b| - 1];
      assert (a + b)[..|a + b| - 1] == a + init;
      RunAppend(p, c, a, init, parse);
    }
  }

  lemma RunSnoc(p: Progress, c: Call, bs: seq<string>, b: string, parse: string -> Parsed)
    ensures Run(p, c, bs + [b], parse) == Deliver(Run(p, c, bs, parse), c, b, parse)
  {
    assert (bs + [b])[..|bs|] == bs;
  }

  /** One turn of the inner loop moves the first block of the buffer to the handled ones. */
  lemma CutOne(rest: string, i: nat, handled: seq<string>)
    requires IndexOfSep(rest, 0) == Some(i)
    ensures handled + SplitBlocks(rest).blocks == (handled + [rest[..i]]) + SplitBlocks(rest[i + 2..]).blocks
    ensures SplitBlocks(rest).rest == SplitBlocks(rest[i + 2..]).rest
  {
    SplitBlocksCut(rest, i);
  }

  /** The inner loop stops when no blank line is left: every block has been handled. */
  lemma Drained(rest: string, handled: seq<string>)
    requires IndexOfSep(rest, 0).None?
    ensures handled + SplitBlocks(rest).blocks == handled && SplitBlocks(rest).rest == rest
  {
    assert SplitBlocks(rest) == Split([], rest);
  }

  // ---------------------------------------------------------------------------
  // Properties of the handlers
  // ---------------------------------------------------------------------------

  /** What the handlers make of a sequence of events, dispatched one after another. */
  function Receive(p: Progress, c: Call, es: seq<Event>): Progress
  {
    if es == [] then p
    else Apply(Receive(p, c, es[..|es| - 1]), c, EventName(es[|es| - 1].kind), es[|es| - 1].data)
  }

  lemma {:induction false} ReceiveAppend(p: Progress, c: Call, a: seq<Event>, b: seq<Event>)
    ensures Receive(p, c, a + b) == Receive(Receive(p, c, a), c, b)
  {
    if b == [] {
      assert a + b == a;
    } else {
      var init := b[..|b| - 1];
      assert (a + b)[..|a + b| - 1] == a + init;
      ReceiveAppend(p, c, a, init);
    }
  }

  /**
   * Sending a message starts the typing indicator and appends exactly one user message,
   * with a fresh id, behind the unchanged list.
   */
  lemma ProvisionalAppended(v: View, content: string, conversationId: Option<Id>, now: Timestamp)
    ensures var temp := Provisional(v.messages, content, conversationId, now);
            var s := Start(v, temp);
            && s.typing
            && |s.messages| == |v.messages| + 1
            && s.messages[..|v.messages|] == v.messages
            && s.messages[|v.messages|] == temp
            && temp.role == User && temp.content == content
            && (forall i :: 0 <= i < |v.messages| ==> v.messages[i].id != temp.id)
            && s.conversations == v.conversations && s.stale == v.stale
  {
    var temp := Provisional(v.messages, content, conversationId, now);
    assert (v.messages + [temp])[..|v.messages|] == v.messages;
  }

  /** Dispatching `initial` with a user message runs the `initial` branch. */
  lemma ApplyInitial(p: Progress, c: Call, d: EventData)
    requires d.userMessage.Some?
    ensures Apply(p, c, EventName(InitialEvent), d) == OnInitial(p, c, d)
  {
  }

  /** Dispatching a `message` event runs the chunk branch, or nothing for an empty chunk. */
  lemma ApplyChunk(p: Progress, c: Call, id: Id, chunk: string, conversationId: Id)
    ensures Apply(p, c, EventName(MessageEvent), ChunkData(id, chunk, conversationId)) ==
            if chunk == "" then p else OnChunk(p, c, ChunkData(id, chunk, conversationId))
  {
  }

  /** Filtering the provisional id out of a list that ends with it drops just that message. */
  lemma WithoutLast(before: seq<Message>, temp: Message)
    requires forall i :: 0 <= i < |before| ==> before[i].id != temp.id
    ensures WithoutId(before + [temp], temp.id) == before
  {
    WithoutIdAppend(before, [temp], temp.id);
    WithoutAbsentId(before, temp.id);
    assert WithoutId([temp], temp.id) == [];
  }

  /** Filtering the provisional id out of a list that holds it once drops just that message. */
  lemma WithoutProvisional(before: seq<Message>, temp: Message, after: seq<Message>)
    requires forall i :: 0 <= i < |before| ==> before[i].id != temp.id
    requires forall i :: 0 <= i < |after| ==> after[i].id != temp.id
    ensures WithoutId(before + [temp] + after, temp.id) == before + after
  {
    WithoutLast(before, temp);
    WithoutIdAppend(before + [temp], after, temp.id);
    WithoutAbsentId(after, temp.id);
  }

  /**
   * `initial` with a user message removes the provisional message and appends the
   * stored one; the other messages keep their order, and the returned conversation id
   * becomes `finalConversationId` when it is truthy.
   */
  lemma InitialReplacesProvisional(p: Progress, c: Call, d: EventData, before: seq<Message>, temp: Message, after: seq<Message>)
    requires d.userMessage.Some?
    requires p.view.messages == before + [temp] + after && temp.id == c.tempId
    requires forall i :: 0 <= i < |before| ==> before[i].id != c.tempId
    requires forall i :: 0 <= i < |after| ==> after[i].id != c.tempId
    ensures var r := Apply(p, c, EventName(InitialEvent), d);
            && r.view.messages == before + after + [d.userMessage.value]
            && r.view.typing == p.view.typing
            && r.final == (if Truthy(d.conversationId) then d.conversationId else None)
            && ConversationsKey in r.view.stale
  {
    ApplyInitial(p, c, d);
    WithoutProvisional(before, temp, after);
  }

  /**
   * `initial` on a turn without a truthy conversation id puts one "New Chat" entry,
   * marked as generating its title, in front of the cache (an absent cache becomes that
   * one entry); with a conversation id the cache is left alone.
   */
  lemma InitialCachesNewConversation(p: Progress, c: Call, d: EventData)
    requires d.userMessage.Some?
    ensures var r := Apply(p, c, EventName(InitialEvent), d);
            var prior := if p.view.conversations.Some? then p.view.conversations.value else [];
            if !Truthy(c.conversationId) && Truthy(d.conversationId) then
              && r.view.conversations.Some?
              && r.view.conversations.value == [Placeholder(d.conversationId.value, c.now)] + prior
              && r.view.conversations.value[0].title == NewChatTitle
              && r.view.conversations.value[0].isTitleGenerating
            else r.view.conversations == p.view.conversations
  {
  }

  /**
   * `q` is `p` after chunks with the text `text` for reply `id`: an empty text changed
   * nothing; otherwise one assistant message holding the text has been appended, typing
   * is off, and nothing else changed.
   */
  predicate Building(q: Progress, p: Progress, c: Call, id: Id, conversationId: Id, text: string)
  {
    && q.final == p.final
    && q.view.conversations == p.view.conversations && q.view.stale == p.view.stale
    && q.view.typing == (if text == "" then p.view.typing else false)
    && q.view.messages ==
         if text == "" then p.view.messages
         else p.view.messages + [Message(id, FirstTruthy(Some(conversationId), p.final, c.route), text, Assistant, c.now)]
  }

  /** One more chunk of the reply extends the text being built by that chunk. */
  lemma ChunkStep(p: Progress, c: Call, q: Progress, id: Id, conversationId: Id, text: string, chunk: string)
    requires id != ""
    requires !HasReply(p.view.messages, id)
    requires Building(q, p, c, id, conversationId, text)
    ensures Building(Apply(q, c, EventName(MessageEvent), ChunkData(id, chunk, conversationId)), p, c, id, conversationId, text + chunk)
  {
    ApplyChunk(q, c, id, chunk, conversationId);
    var ms := p.view.messages;
    var cid := FirstTruthy(Some(conversationId), p.final, c.route);
    if chunk == "" {
      assert text + chunk == text;
    } else if text == "" {
      assert text + chunk == chunk;
    } else {
      ExtendOwnReply(ms, id, cid, text, chunk, c.now, cid);
    }
  }

  /**
   * The chunks of one reply id, dispatched in order, build a single assistant message
   * whose content is their concatenation (empty chunks are skipped); nothing else
   * changes, and typing stops with the first non-empty chunk.
   */
  lemma {:induction false} ChunksConcatenate(p: Progress, c: Call, id: Id, chunks: seq<string>, conversationId: Id)
    requires id != ""
    requires !HasReply(p.view.messages, id)
    ensures Building(Receive(p, c, ChunkEvents(id, chunks, conversationId)), p, c, id, conversationId, Concat(chunks))
  {
    if chunks != [] {
      var n := |chunks|;
      var init := chunks[..n - 1];
      var last := chunks[n - 1];
      var es := ChunkEvents(id, chunks, conversationId);
      assert es[..n - 1] == ChunkEvents(id, init, conversationId);
      ChunksConcatenate(p, c, id, init, conversationId);
      ConcatSnoc(chunks, n - 1);
      assert chunks[..n] == chunks;
      var q := Receive(p, c, es[..n - 1]);
      assert Receive(p, c, es) == Apply(q, c, EventName(MessageEvent), ChunkData(id, last, conversationId));
      ChunkStep(p, c, q, id, conversationId, Concat(init), last);
    }
  }

  /** A further chunk for the reply a turn is building extends that reply and nothing else. */
  lemma ExtendOwnReply(ms: seq<Message>, id: Id, conversationId: Id, text: string, chunk: string, now: Timestamp, other: Id)
    requires !HasReply(ms, id)
    ensures AddChunk(ms + [Message(id, conversationId, text, Assistant, now)], id, chunk, other, now) ==
            ms + [Message(id, conversationId, text + chunk, Assistant, now)]
  {
    var before := ms + [Message(id, conversationId, text, Assistant, now)];
    assert IsReplyTo(before[|ms|], id);
    var after := AddChunk(before, id, chunk, other, now);
    forall i | 0 <= i < |ms| ensures after[i] == ms[i] {
      assert !IsReplyTo(ms[i], id);
    }
  }

  /** An `error` event with a text stops typing and shows the text in place of the provisional message. */
  lemma ErrorEventShown(p: Progress, c: Call, d: EventData)
    requires Truthy(d.content)
    ensures var r := Apply(p, c, EventName(ErrorEvent), d);
            var kept := WithoutId(p.view.messages, c.tempId);
            var ms := r.view.messages;
            && !r.view.typing
            && |ms| == |kept| + 1 && ms[..|kept|] == kept
            && ms[|kept|].content == d.content.value && ms[|kept|].role == Assistant
            && ConversationsKey in r.view.stale
            && r.view.conversations == p.view.conversations && r.final == p.final
  {
  }

  /** `done` changes nothing. */
  lemma DoneChangesNothing(p: Progress, c: Call, d: EventData)
    ensures Apply(p, c, EventName(DoneEvent), d) == p
  {
  }

  /**
   * `titleUpdate` with an id and a title changes only the cache: the rows with that id
   * get the title and stop generating, the others stay; an absent cache becomes empty.
   */
  lemma TitleUpdateRetitlesCache(p: Progress, c: Call, d: EventData)
    requires Truthy(d.conversationId) && Truthy(d.newTitle)
    ensures var r := Apply(p, c, EventName(TitleUpdateEvent), d);
            var id := d.conversationId.value;
            && r.final == p.final
            && r.view.messages == p.view.messages && r.view.typing == p.view.typing && r.view.stale == p.view.stale
            && r.view.conversations.Some?
            && (p.view.conversations.None? ==> r.view.conversations.value == [])
            && (p.view.conversations.Some? ==>
                  var cs := p.view.conversations.value;
                  && |r.view.conversations.value| == |cs|
                  && forall i :: 0 <= i < |cs| ==>
                       r.view.conversations.value[i] ==
                         if cs[i].id == id then cs[i].(title := d.newTitle.value, isTitleGenerating := false) else cs[i])
  {
  }

  /**
   * Whatever happens, typing is off after the turn and the route's messages are
   * invalidated, as are those of the conversation the turn ended up in.
   */
  lemma TurnCleansUp(v: View, content: string, conversationId: Option<Id>, route: Option<Id>,
                     transport: Transport, parse: string -> Parsed, now: Timestamp)
    ensures var r := ClientTurn(v, content, conversationId, route, transport, parse, now);
            var temp := Provisional(v.messages, content, conversationId, now);
            var c := Call(content, conversationId, route, temp.id, now);
            var final := if transport.Opened?
                         then Run(Progress(Start(v, temp), None), c, SplitBlocks(Concat(transport.pieces)).blocks, parse).final
                         else None;
            && !r.typing
            && MessagesKey(route) in r.stale
            && (final.Some? ==> MessagesKey(final) in r.stale)
            && (final.None? && Truthy(conversationId) ==> MessagesKey(conversationId) in r.stale)
  {
  }

  /**
   * A refused request leaves the list as it was before the turn plus one assistant
   * message with the fixed apology: the provisional message is gone.
   */
  lemma RefusedTurnApologises(v: View, content: string, conversationId: Option<Id>, route: Option<Id>,
                              parse: string -> Parsed, now: Timestamp)
    ensures var r := ClientTurn(v, content, conversationId, route, Refused, parse, now);
            && |r.messages| == |v.messages| + 1
            && r.messages[..|v.messages|] == v.messages
            && r.messages[|v.messages|].content == UnexpectedError
            && r.messages[|v.messages|].role == Assistant
            && !r.typing && ConversationsKey in r.stale
  {
    var temp := Provisional(v.messages, content, conversationId, now);
    WithoutIdAppend(v.messages, [temp], temp.id);
    WithoutAbsentId(v.messages, temp.id);
    assert WithoutId([temp], temp.id) == [];
  }

  /** A read that throws ends the turn with the fixed apology after what the events did. */
  lemma BrokenStreamApologises(v: View, content: string, conversationId: Option<Id>, route: Option<Id>,
                               pieces: seq<string>, parse: string -> Parsed, now: Timestamp)
    ensures var r := ClientTurn(v, content, conversationId, route, Opened(pieces, true), parse, now);
            var temp := Provisional(v.messages, content, conversationId, now);
            var c := Call(content, conversationId, route, temp.id, now);
            var p := Run(Progress(Start(v, temp), None), c, SplitBlocks(Concat(pieces)).blocks, parse);
            var kept := WithoutId(p.view.messages, temp.id);
            && |r.messages| == |kept| + 1
            && r.messages[..|kept|] == kept
            && r.messages[|kept|].content == UnexpectedError
            && r.messages[|kept|].role == Assistant
            && !r.typing && ConversationsKey in r.stale
  {
  }

  // ---------------------------------------------------------------------------
  // The hook
  // ---------------------------------------------------------------------------

  /** The `for` loop over the lines of one block, from both variables undefined. */
  method ScanEventLines(lines: seq<string>, parse: string -> Parsed) returns (eventType: Option<string>, eventData: Option<EventData>)
    ensures BlockFields(eventType, eventData) == ScanLines(lines, parse)
  {
    eventType, eventData := None, None;
    for i := 0 to |lines|
      invariant BlockFields(eventType, eventData) == ScanLines(lines[..i], parse)
    {
      var line := lines[i];
      assert lines[..i + 1][..i] == lines[..i];
      if StartsWith(line, EventPrefix) {
        eventType := Some(line[|EventPrefix|..]);
      } else if StartsWith(line, DataPrefix) {
        match parse(line[|DataPrefix|..])
        case Malformed =>
        case Falsy => eventData := None;
        case Value(d) => eventData := Some(d);
      }
    }
    assert lines[..|lines|] == lines;
  }

  /** The state of `useChatStream` and of the two query-cache entries it writes. */
  class ChatStream {
    var messages: seq<Message>
    var typing: bool
    var conversations: Option<seq<CachedConversation>>
    var stale: set<QueryKey>

    function State(): View
      reads this
    {
      View(messages, typing, conversations, stale)
    }

    /** The hook once its effect ran: the fetched messages, or none while the query holds no data. */
    constructor (fetched: Option<seq<Message>>, cache: Option<seq<CachedConversation>>)
      ensures State() == View(if fetched.Some? then fetched.value else [], false, cache, {})
    {
      messages := if fetched.Some? then fetched.value else [];
      typing := false;
      conversations := cache;
      stale := {};
    }

    /** `sendMessage(content, currentConversationId)` while the route shows `route`. */
    method SendMessage(content: string, conversationId: Option<Id>, route: Option<Id>, transport: Transport,
                       parse: string -> Parsed, now: Timestamp)
      modifies this
      ensures State() == ClientTurn(old(State()), content, conversationId, route, transport, parse, now)
    {
      typing := true;
      var temp := Provisional(messages, content, conversationId, now);
      messages := messages + [temp];
      var c := Call(content, conversationId, route, temp.id, now);
      var final: Option<Id> := None;
      if transport.Refused? {
        Fail(c);
      } else {
        final := ReadAll(c, transport.pieces, parse);
        if transport.broken {
          Fail(c);
        }
      }
      CleanUp(c, final);
    }

    /** `while (true)` over the reads: each piece is appended to the buffer, which is then drained. */
    method ReadAll(c: Call, pieces: seq<string>, parse: string -> Parsed) returns (final: Option<Id>)
      modifies this
      ensures Progress(State(), final) == Run(Progress(old(State()), None), c, SplitBlocks(Concat(pieces)).blocks, parse)
    {
      final := None;
      var buffer := "";
      ghost var p0 := Progress(State(), None);
      var k := 0;
      while k < |pieces|
        invariant k <= |pieces|
        invariant buffer == SplitBlocks(Concat(pieces[..k])).rest
        invariant Progress(State(), final) == Run(p0, c, SplitBlocks(Concat(pieces[..k])).blocks, parse)
      {
        ghost var read := Concat(pieces[..k]);
        ConcatSnoc(pieces, k);
        SplitBlocksAppend(read, pieces[k]);
        RunAppend(p0, c, SplitBlocks(read).blocks, SplitBlocks(buffer + pieces[k]).blocks, parse);
        buffer := buffer + pieces[k];
        buffer, final := Drain(c, buffer, final, parse);
        k := k + 1;
      }
      assert pieces[..k] == pieces;
    }

    /** The inner `while`: every block before a blank line is cut off the buffer and handled. */
    method Drain(c: Call, buffer: string, final: Option<Id>, parse: string -> Parsed) returns (rest: string, final': Option<Id>)
      modifies this
      ensures rest == SplitBlocks(buffer).rest
      ensures Progress(State(), final') == Run(Progress(old(State()), final), c, SplitBlocks(buffer).blocks, parse)
    {
      rest, final' := buffer, final;
      ghost var p0 := Progress(State(), final);
      ghost var handled: seq<string> := [];
      while IndexOfSep(rest, 0).Some?
        invariant SplitBlocks(buffer).blocks == handled + SplitBlocks(rest).blocks
        invariant SplitBlocks(buffer).rest == SplitBlocks(rest).rest
        invariant Progress(State(), final') == Run(p0, c, handled, parse)
        decreases |rest|
      {
        var i := IndexOfSep(rest, 0).value;
        var block := rest[..i];
        CutOne(rest, i, handled);
        rest := rest[i + 2..];
        RunSnoc(p0, c, handled, block, parse);
        final' := Handle(c, final', block, parse);
        handled := handled + [block];
      }
      Drained(rest, handled);
    }

    /** One block: its lines are scanned and it is dispatched when it has a type and data. */
    method Handle(c: Call, final: Option<Id>, block: string, parse: string -> Parsed) returns (final': Option<Id>)
      modifies this
      ensures Progress(State(), final') == Deliver(Progress(old(State()), final), c, block, parse)
    {
      var eventType, eventData := ScanEventLines(SplitLines(block), parse);
      final' := final;
      if Truthy(eventType) && eventData.Some? {
        final' := Dispatch(c, final, eventType.value, eventData.value);
      }
    }

    /** The `if / else if` chain of the handlers. */
    method Dispatch(c: Call, final: Option<Id>, kind: string, d: EventData) returns (final': Option<Id>)
      modifies this
      ensures Progress(State(), final') == Apply(Progress(old(State()), final), c, kind, d)
    {
      final' := final;
      if kind == EventName(InitialEvent) && d.userMessage.Some? {
        messages := WithoutId(messages, c.tempId) + [d.userMessage.value];
        final' := if Truthy(d.conversationId) then d.conversationId else None;
        if !Truthy(c.conversationId) && final'.Some? {
          conversations := Prepend(conversations, Placeholder(final'.value, c.now));
        }
        stale := stale + {ConversationsKey};
      } else if kind == EventName(MessageEvent) && Truthy(d.chunk) {
        typing := false;
        if Truthy(d.id) {
          messages := AddChunk(messages, d.id.value, d.chunk.value, FirstTruthy(d.conversationId, final, c.route), c.now);
        }
      } else if kind == EventName(ErrorEvent) && Truthy(d.content) {
        typing := false;
        messages := ReplaceWithNotice(messages, c.tempId, d.content.value, FirstTruthy(d.conversationId, final, c.route), c.now);
        stale := stale + {ConversationsKey};
      } else if kind == EventName(DoneEvent) {
      } else if kind == EventName(TitleUpdateEvent) && Truthy(d.conversationId) && Truthy(d.newTitle) {
        conversations := RetitleCache(conversations, d.conversationId.value, d.newTitle.value);
      }
    }

    /** The `catch` block. */
    method Fail(c: Call)
      modifies this
      ensures State() == Catch(old(State()), c)
    {
      typing := false;
      messages := ReplaceWithNotice(messages, c.tempId, UnexpectedError, FirstTruthy(c.conversationId, c.route, None), c.now);
      stale := stale + {ConversationsKey};
    }

    /** The `finally` block. */
    method CleanUp(c: Call, final: Option<Id>)
      modifies this
      ensures State() == Finally(old(State()), c, final)
    {
      typing := false;
      if final.Some? {
        stale := stale + {MessagesKey(final)};
      } else if Truthy(c.conversationId) {
        stale := stale + {MessagesKey(c.conversationId)};
      }
      stale := stale + {MessagesKey(c.route)};
    }
  }
}

/**
 * The streaming relay of one chat turn (`sendMessage`) and the ownership check of the
 * message listing (`getConversationMessages`).
 *
 * `Relay` states what one turn does as a value: the events it writes, the tables after
 * it, how often the response is ended and what the provider was asked. `SendMessage`
 * is the handler itself, written as the source runs it (validation, conversation
 * resolution, the chunk loop, the nested try/catch around the reply and the title), and
 * is proved to do exactly what `Relay` says. The lemmas after it state the turn's
 * properties about `Relay`.
 *
 * The environment is an oracle: which store calls fail, the stream the provider yields,
 * the title text it returns, the id `uuidv4()` gives the streamed reply, and the clock.
 */
module ChatController {
  import opened ChatTypes
  import opened EventStream
  import opened MessageStore
  import opened ConversationStore
  import opened AiService

  // ---------------------------------------------------------------------------
  // Input, constants, oracle
  // ---------------------------------------------------------------------------

  /** A field of the JSON request body: absent, a string, or a value of another type. */
  datatype Field = Missing | Text(text: string) | NotText

  datatype SendRequest = SendRequest(content: Field, conversationId: Field)

  const MaxContentLength: nat := 4000
  /** The temporary title of a conversation created by a turn. */
  const Sentinel: string := "New Chat"
  const InvalidInput: string := "Invalid input data"
  const NotFound: string := "Conversation not found"
  const InternalError: string := "Internal server error"
  const ReplyFailure: string := "I'm sorry, I couldn't generate a response at this time. Please try again."
  const FallbackTitleLength: nat := 50

  /**
   * The request schema: `content` a string of 1 to 4000 characters, `conversationId`
   * absent or a string. `None` is the schema's validation error.
   */
  function ParseBody(req: SendRequest): (r: Option<(string, Option<string>)>)
    ensures r.Some? <==> req.content.Text? && 1 <= |req.content.text| <= MaxContentLength && !req.conversationId.NotText?
    ensures r.Some? ==> r.value.0 == req.content.text
    ensures r.Some? ==> r.value.1 == if req.conversationId.Text? then Some(req.conversationId.text) else None
  {
    if req.content.Text? && 1 <= |req.content.text| <= MaxContentLength && !req.conversationId.NotText? then
      Some((req.content.text, if req.conversationId.Text? then Some(req.conversationId.text) else None))
    else None
  }

  /** The store calls a turn can make; each is made at most once. */
  datatype StoreCall =
    | LookupConversation | FetchHistory | CreateConversation | SaveUserMessage
    | SaveReply | SaveTitle | SaveFallbackTitle | SaveErrorReply

  /**
   * What the environment does during one turn: the store calls that fail, the id
   * generated for the streamed reply, the provider's stream, and the title model's text
   * (`None` when it throws).
   */
  datatype Oracle = Oracle(failing: set<StoreCall>, assistantId: Id, provider: ProviderStream, title: Option<string>)

  /** The two tables. */
  datatype Tables = Tables(conversations: seq<Conversation>, messages: seq<Message>)

  /**
   * The outcome of one turn: the events written, the tables after it, how many times
   * `res.end()` ran, and the contents sent to the provider (`None` if it was not called).
   */
  datatype Turn = Turn(events: seq<Event>, tables: Tables, ends: nat, request: Option<seq<Content>>)

  function ErrorEv(text: string): Event
  {
    Event(ErrorEvent, ErrorData(text))
  }

  /** The provider history of a stored conversation: role and content of each message. */
  function History(ms: seq<Message>): (h: seq<HistoryEntry>)
    ensures |h| == |ms|
    ensures forall i :: 0 <= i < |ms| ==> h[i] == HistoryEntry(RoleName(ms[i].role), ms[i].content)
  {
    seq(|ms|, i requires 0 <= i < |ms| => HistoryEntry(RoleName(ms[i].role), ms[i].content))
  }

  /** The title used when the generated one cannot be had or saved: the first 50 characters, "..." if cut. */
  function FallbackTitle(content: string): (t: string)
    ensures |content| <= FallbackTitleLength ==> t == content
    ensures |content| > FallbackTitleLength ==> t == content[..FallbackTitleLength] + "..."
  {
    Substring(content, 0, FallbackTitleLength) + (if |content| > FallbackTitleLength then "..." else "")
  }

  // ---------------------------------------------------------------------------
  // The turn as a value
  // ---------------------------------------------------------------------------

  /** The catch around the reply: the fixed apology is written and saved as the reply. */
  function ReplyFailed(events: seq<Event>, conversationId: Id, t: Tables, o: Oracle, now: Timestamp, contents: seq<Content>): Turn
  {
    var withError := events + [ErrorEv(ReplyFailure)];
    if SaveErrorReply in o.failing then
      Turn(withError + [ErrorEv(InternalError)], t, 1, Some(contents))
    else
      var m := NewMessage(t.messages, conversationId, ReplyFailure, Assistant, now);
      Turn(withError, t.(messages := t.messages + [m]), 1, Some(contents))
  }

  /** The catch around the generated title: the fallback title is saved and sent, or its failure is an AI error. */
  function FallbackStep(done: seq<Event>, conv: Conversation, content: string, t: Tables, o: Oracle, now: Timestamp, contents: seq<Content>): Turn
  {
    var fallback := FallbackTitle(content);
    if SaveFallbackTitle in o.failing then ReplyFailed(done, conv.id, t, o, now, contents)
    else
      Turn(done + [Event(TitleUpdateEvent, TitleData(conv.id, fallback))],
           t.(conversations := Retitled(t.conversations, conv.id, fallback, now)), 1, Some(contents))
  }

  /**
   * The title step after `done`, taken only while the title read at the start is the
   * sentinel; `generated` is what `generateChatTitle` returns or throws.
   */
  function TitleStep(done: seq<Event>, conv: Conversation, content: string, generated: Result<string>,
                     t: Tables, o: Oracle, now: Timestamp, contents: seq<Content>): Turn
  {
    if conv.title != Sentinel then Turn(done, t, 1, Some(contents))
    else
      if generated.Ok? && SaveTitle !in o.failing then
        Turn(done + [Event(TitleUpdateEvent, TitleData(conv.id, generated.value))],
             t.(conversations := Retitled(t.conversations, conv.id, generated.value, now)), 1, Some(contents))
      else FallbackStep(done, conv, content, t, o, now, contents)
  }

  /** After the stream: the apology when it failed or the reply cannot be saved, else `done` and the title step. */
  function ReplyStep(streamed: seq<Event>, conv: Conversation, content: string, t1: Tables, o: Oracle, now: Timestamp,
                     contents: seq<Content>): Turn
  {
    if !o.provider.completes || SaveReply in o.failing then ReplyFailed(streamed, conv.id, t1, o, now, contents)
    else
      var reply := NewMessage(t1.messages, conv.id, Concat(o.provider.items), Assistant, now);
      var t2 := t1.(messages := t1.messages + [reply]);
      TitleStep(streamed + [Event(DoneEvent, DoneData(conv.id, reply))], conv, content, GenerateChatTitle(o.title), t2, o, now, contents)
  }

  /** From the resolved conversation on: save the user message, stream, save the reply, title. */
  function Converse(conv: Conversation, history: seq<HistoryEntry>, content: string, t: Tables, o: Oracle, now: Timestamp): Turn
  {
    if SaveUserMessage in o.failing then Turn([ErrorEv(InternalError)], t, 1, None)
    else
      var um := NewMessage(t.messages, conv.id, content, User, now);
      var t1 := t.(messages := t.messages + [um]);
      var streamed := [Event(InitialEvent, InitialData(conv.id, um))] + ChunkEvents(o.assistantId, o.provider.items, conv.id);
      ReplyStep(streamed, conv, content, t1, o, now, BuildContents(content, history))
  }

  /** How the first phase of a turn ends: with a sole error event, or with a conversation to talk in. */
  datatype Resolution =
    | Rejected(error: string, ends: nat)
    | Resolved(content: string, conv: Conversation, history: seq<HistoryEntry>, tables: Tables)

  /**
   * Validation and conversation resolution: a truthy `conversationId` must name a
   * conversation of the caller, whose stored messages become the provider history;
   * otherwise a conversation titled "New Chat" is created for the caller, with an empty
   * history. On the not-found path the response is ended twice (once directly, once in
   * `finally`).
   */
  function Resolve(req: SendRequest, userId: Id, t: Tables, o: Oracle, now: Timestamp): (r: Resolution)
    ensures r == Rejected(InvalidInput, 1) <==> ParseBody(req).None?
    ensures r.Rejected? ==> r.error in {InvalidInput, NotFound, InternalError} && r.ends == (if r.error == NotFound then 2 else 1)
    ensures r.Rejected? && r.error == NotFound <==>
              ParseBody(req).Some? && Truthy(ParseBody(req).value.1) &&
              GetConversation(t.conversations, ParseBody(req).value.1.value, userId, LookupConversation !in o.failing).None?
    ensures r.Rejected? && r.error == InternalError <==>
              ParseBody(req).Some? &&
              if Truthy(ParseBody(req).value.1)
              then GetConversation(t.conversations, ParseBody(req).value.1.value, userId, LookupConversation !in o.failing).Some? &&
                   FetchHistory in o.failing
              else CreateConversation in o.failing
    ensures r.Resolved? <==>
              ParseBody(req).Some? &&
              if Truthy(ParseBody(req).value.1)
              then GetConversation(t.conversations, ParseBody(req).value.1.value, userId, LookupConversation !in o.failing).Some? &&
                   FetchHistory !in o.failing
              else CreateConversation !in o.failing
    ensures r.Resolved? ==> ParseBody(req) == Some((r.content, ParseBody(req).value.1))
    ensures r.Resolved? ==> r.conv.userId == userId && r.conv in r.tables.conversations
    ensures r.Resolved? && Truthy(ParseBody(req).value.1) ==>
              && r.conv in t.conversations && r.conv.id == ParseBody(req).value.1.value
              && r.history == History(ConversationMessages(t.messages, r.conv.id))
              && r.tables == t
    ensures r.Resolved? && !Truthy(ParseBody(req).value.1) ==>
              && r.conv == NewConversation(t.conversations, userId, Sentinel, now)
              && r.conv.title == Sentinel
              && r.history == []
              && r.tables == t.(conversations := t.conversations + [r.conv])
  {
    match ParseBody(req)
    case None => Rejected(InvalidInput, 1)
    case Some((content, cid)) =>
      if Truthy(cid) then
        match GetConversation(t.conversations, cid.value, userId, LookupConversation !in o.failing)
        case None => Rejected(NotFound, 2)
        case Some(conv) =>
          if FetchHistory in o.failing then Rejected(InternalError, 1)
          else Resolved(content, conv, History(ConversationMessages(t.messages, cid.value)), t)
      else if CreateConversation in o.failing then Rejected(InternalError, 1)
      else
        var conv := NewConversation(t.conversations, userId, Sentinel, now);
        Resolved(content, conv, [], t.(conversations := t.conversations + [conv]))
  }

  /** One turn of `sendMessage` by `userId` against tables `t`. */
  function Relay(req: SendRequest, userId: Id, t: Tables, o: Oracle, now: Timestamp): Turn
  {
    match Resolve(req, userId, t, o, now)
    case Rejected(error, ends) => Turn([ErrorEv(error)], t, ends, None)
    case Resolved(content, conv, history, t1) => Converse(conv, history, content, t1, o, now)
  }

  // ---------------------------------------------------------------------------
  // The handler
  // ---------------------------------------------------------------------------

  /** The frames of a sequence of events, with `json` standing for `JSON.stringify`. */
  function Frames(events: seq<Event>, json: EventData -> string): (fs: seq<Frame>)
    ensures |fs| == |events|
  {
    seq(|events|, i requires 0 <= i < |events| => Frame(EventName(events[i].kind), json(events[i].data)))
  }

  lemma {:induction false} FrameWritesAppend(a: seq<Frame>, b: seq<Frame>)
    ensures FrameWrites(a + b) == FrameWrites(a) + FrameWrites(b)
  {
    if a == [] {
      assert a + b == b;
    } else {
      assert (a + b)[1..] == a[1..] + b;
      FrameWritesAppend(a[1..], b);
    }
  }

  /** The response channel: every `res.write` in order, and the number of `res.end()` calls. */
  class Response {
    var written: seq<string>
    var ends: nat
    ghost var events: seq<Event>

    /** What was written is the framing of the events sent. */
    ghost predicate Framed(json: EventData -> string)
      reads this
    {
      written == FrameWrites(Frames(events, json))
    }

    constructor ()
      ensures written == [] && ends == 0 && events == []
    {
      written, ends, events := [], 0, [];
    }

    method End()
      modifies this
      ensures ends == old(ends) + 1
      ensures written == old(written) && events == old(events)
    {
      ends := ends + 1;
    }
  }

  /** `sendEvent`: writes `event: T\n`, then `data: P\n\n`. */
  method SendEvent(res: Response, e: Event, json: EventData -> string)
    requires res.Framed(json)
    modifies res
    ensures res.Framed(json)
    ensures res.events == old(res.events) + [e]
    ensures res.written == old(res.written) + [EventLine(EventName(e.kind)), DataLine(json(e.data))]
    ensures res.ends == old(res.ends)
  {
    ghost var before := res.events;
    res.written := res.written + [EventLine(EventName(e.kind))];
    res.written := res.written + [DataLine(json(e.data))];
    res.events := res.events + [e];
    assert Frames(res.events, json) == Frames(before, json) + [Frame(EventName(e.kind), json(e.data))];
    FrameWritesAppend(Frames(before, json), [Frame(EventName(e.kind), json(e.data))]);
  }

  /**
   * `ChatController.sendMessage` for the authenticated user `userId`: the events written,
   * the tables and the number of `res.end()` calls are those of `Relay`.
   */
  method SendMessage(req: SendRequest, userId: Id, convs: ConversationService, msgs: MessageService,
                     res: Response, o: Oracle, now: Timestamp, json: EventData -> string)
    requires convs.Valid() && res.Framed(json)
    modifies convs, msgs, res
    ensures convs.Valid() && res.Framed(json)
    ensures var turn := Relay(req, userId, Tables(old(convs.rows), old(msgs.rows)), o, now);
            && res.events == old(res.events) + turn.events
            && convs.rows == turn.tables.conversations
            && msgs.rows == turn.tables.messages
            && res.ends == old(res.ends) + turn.ends
  {
    ghost var t0 := Tables(convs.rows, msgs.rows);
    var parsed := ParseBody(req);
    if parsed.None? {
      SendEvent(res, ErrorEv(InvalidInput), json);
      res.End();
      return;
    }
    var content, conversationId := parsed.value.0, parsed.value.1;
    var conversation: Conversation;
    var history: seq<HistoryEntry> := [];
    if Truthy(conversationId) {
      var found := GetConversation(convs.rows, conversationId.value, userId, LookupConversation !in o.failing);
      if found.None? {
        SendEvent(res, ErrorEv(NotFound), json);
        res.End();
        res.End();
        return;
      }
      conversation := found.value;
      var listed := GetConversationMessages(msgs.rows, conversationId.value, FetchHistory !in o.failing);
      if listed.Err? {
        SendEvent(res, ErrorEv(InternalError), json);
        res.End();
        return;
      }
      history := History(listed.value);
    } else {
      var created := convs.CreateConversation(userId, Sentinel, now, CreateConversation !in o.failing);
      if created.Err? {
        SendEvent(res, ErrorEv(InternalError), json);
        res.End();
        return;
      }
      conversation := created.value;
    }
    assert Relay(req, userId, t0, o, now) == Converse(conversation, history, content, Tables(convs.rows, msgs.rows), o, now);
    Exchange(conversation, history, content, convs, msgs, res, o, now, json);
    res.End();
  }

  /**
   * The body of the outer `try` once the conversation is resolved: save the user message,
   * send `initial`, relay the chunks, then the reply, the title or the apology.
   */
  method Exchange(conversation: Conversation, history: seq<HistoryEntry>, content: string,
                  convs: ConversationService, msgs: MessageService, res: Response, o: Oracle, now: Timestamp,
                  json: EventData -> string)
    requires convs.Valid() && res.Framed(json)
    modifies convs, msgs, res
    ensures convs.Valid() && res.Framed(json) && res.ends == old(res.ends)
    ensures var turn := Converse(conversation, history, content, Tables(old(convs.rows), old(msgs.rows)), o, now);
            && res.events == old(res.events) + turn.events
            && convs.rows == turn.tables.conversations
            && msgs.rows == turn.tables.messages
            && turn.ends == 1
  {
    ghost var e0 := res.events;
    var userMessage := msgs.CreateMessage(conversation.id, content, User, now, SaveUserMessage !in o.failing);
    if userMessage.Err? {
      SendEvent(res, ErrorEv(InternalError), json);
      return;
    }
    SendEvent(res, Event(InitialEvent, InitialData(conversation.id, userMessage.value)), json);

    var assistantMessageId := o.assistantId;
    var contents, chunks, failure := GenerateResponse(content, history, o.provider);
    var fullAssistantResponseContent := RelayChunks(res, assistantMessageId, chunks, conversation.id, json);
    ghost var streamed := [Event(InitialEvent, InitialData(conversation.id, userMessage.value))]
                          + ChunkEvents(assistantMessageId, chunks, conversation.id);
    Reply(conversation, content, failure, fullAssistantResponseContent, convs, msgs, res, o, now, json, e0, streamed, contents);
  }

  /**
   * The rest of the inner `try` and its `catch`: the reply is saved and `done` sent, then
   * the title step; a stream failure or a failed save takes the apology path.
   */
  method Reply(conversation: Conversation, content: string, failure: Option<string>, fullAssistantResponseContent: string,
               convs: ConversationService, msgs: MessageService, res: Response, o: Oracle, now: Timestamp,
               json: EventData -> string, ghost base: seq<Event>, ghost streamed: seq<Event>, ghost contents: seq<Content>)
    requires failure == if o.provider.completes then None else Some(ResponseFailure)
    requires fullAssistantResponseContent == Concat(o.provider.items)
    requires convs.Valid() && res.Framed(json) && res.events == base + streamed
    modifies convs, msgs, res
    ensures convs.Valid() && res.Framed(json) && res.ends == old(res.ends)
    ensures var turn := ReplyStep(streamed, conversation, content, Tables(old(convs.rows), old(msgs.rows)), o, now, contents);
            && res.events == base + turn.events
            && convs.rows == turn.tables.conversations
            && msgs.rows == turn.tables.messages
            && turn.ends == 1
  {
    ghost var t1 := Tables(convs.rows, msgs.rows);
    if failure.Some? {
      Apologise(conversation.id, msgs, res, o, now, json, base, streamed, t1, contents);
      return;
    }
    var assistantMessage := msgs.CreateMessage(conversation.id, fullAssistantResponseContent, Assistant, now, SaveReply !in o.failing);
    if assistantMessage.Err? {
      Apologise(conversation.id, msgs, res, o, now, json, base, streamed, t1, contents);
      return;
    }
    SendEvent(res, Event(DoneEvent, DoneData(conversation.id, assistantMessage.value)), json);
    if conversation.title == Sentinel {
      var generated := GenerateChatTitle(o.title);
      Title(conversation, content, generated, convs, msgs, res, o, now, json, base,
            streamed + [Event(DoneEvent, DoneData(conversation.id, assistantMessage.value))], contents);
    }
  }

  /**
   * The `for await` loop: one `message` event per chunk, in order, while the chunks are
   * accumulated into the reply text.
   */
  method RelayChunks(res: Response, assistantMessageId: Id, chunks: seq<string>, conversationId: Id,
                     json: EventData -> string) returns (fullAssistantResponseContent: string)
    requires res.Framed(json)
    modifies res
    ensures res.Framed(json) && res.ends == old(res.ends)
    ensures res.events == old(res.events) + ChunkEvents(assistantMessageId, chunks, conversationId)
    ensures fullAssistantResponseContent == Concat(chunks)
  {
    fullAssistantResponseContent := "";
    var i := 0;
    while i < |chunks|
      invariant 0 <= i <= |chunks|
      invariant fullAssistantResponseContent == Concat(chunks[..i])
      invariant res.Framed(json)
      invariant res.events == old(res.events) + ChunkEvents(assistantMessageId, chunks[..i], conversationId)
      invariant res.ends == old(res.ends)
    {
      ConcatSnoc(chunks, i);
      fullAssistantResponseContent := fullAssistantResponseContent + chunks[i];
      SendEvent(res, Event(MessageEvent, ChunkData(assistantMessageId, chunks[i], conversationId)), json);
      assert ChunkEvents(assistantMessageId, chunks[..i + 1], conversationId)
          == ChunkEvents(assistantMessageId, chunks[..i], conversationId)
             + [Event(MessageEvent, ChunkData(assistantMessageId, chunks[i], conversationId))];
      i := i + 1;
    }
    assert chunks[..i] == chunks;
  }

  /**
   * After `done`, while the title read at the start is the sentinel: save and send the
   * generated title, falling back to the truncated message; a failed fallback save is an AI error.
   */
  method Title(conversation: Conversation, content: string, generated: Result<string>,
               convs: ConversationService, msgs: MessageService,
               res: Response, o: Oracle, now: Timestamp, json: EventData -> string,
               ghost base: seq<Event>, ghost sent: seq<Event>, ghost contents: seq<Content>)
    requires conversation.title == Sentinel
    requires convs.Valid() && res.Framed(json) && res.events == base + sent
    modifies convs, msgs, res
    ensures convs.Valid() && res.Framed(json) && res.ends == old(res.ends)
    ensures var turn := TitleStep(sent, conversation, content, generated, Tables(old(convs.rows), old(msgs.rows)), o, now, contents);
            && res.events == base + turn.events
            && convs.rows == turn.tables.conversations
            && msgs.rows == turn.tables.messages
            && turn.ends == 1
  {
    var saved := Fail("");
    if generated.Ok? {
      saved := convs.UpdateConversationTitle(conversation.id, generated.value, now, SaveTitle !in o.failing);
    }
    if generated.Ok? && saved.Pass? {
      SendEvent(res, Event(TitleUpdateEvent, TitleData(conversation.id, generated.value)), json);
      return;
    }
    Fallback(conversation, content, convs, msgs, res, o, now, json, base, sent, contents);
  }

  /** The catch around the generated title: save and send the truncated message as the title. */
  method Fallback(conversation: Conversation, content: string, convs: ConversationService, msgs: MessageService,
                  res: Response, o: Oracle, now: Timestamp, json: EventData -> string,
                  ghost base: seq<Event>, ghost sent: seq<Event>, ghost contents: seq<Content>)
    requires convs.Valid() && res.Framed(json) && res.events == base + sent
    modifies convs, msgs, res
    ensures convs.Valid() && res.Framed(json) && res.ends == old(res.ends)
    ensures var turn := FallbackStep(sent, conversation, content, Tables(old(convs.rows), old(msgs.rows)), o, now, contents);
            && res.events == base + turn.events
            && convs.rows == turn.tables.conversations
            && msgs.rows == turn.tables.messages
            && turn.ends == 1
  {
    var defaultTitle := FallbackTitle(content);
    var fallbackSaved := convs.UpdateConversationTitle(conversation.id, defaultTitle, now, SaveFallbackTitle !in o.failing);
    if fallbackSaved.Fail? {
      Apologise(conversation.id, msgs, res, o, now, json, base, sent, Tables(convs.rows, msgs.rows), contents);
    } else {
      SendEvent(res, Event(TitleUpdateEvent, TitleData(conversation.id, defaultTitle)), json);
    }
  }

  /** The catch around the reply: send the apology, then save it as the reply. */
  method Apologise(conversationId: Id, msgs: MessageService, res: Response, o: Oracle, now: Timestamp,
                   json: EventData -> string, ghost base: seq<Event>, ghost sent: seq<Event>,
                   ghost t: Tables, ghost contents: seq<Content>)
    requires res.Framed(json) && res.events == base + sent && msgs.rows == t.messages
    modifies msgs, res
    ensures res.Framed(json) && res.ends == old(res.ends)
    ensures var turn := ReplyFailed(sent, conversationId, t, o, now, contents);
            && res.events == base + turn.events
            && msgs.rows == turn.tables.messages
            && turn.tables.conversations == t.conversations
            && turn.ends == 1
  {
    SendEvent(res, ErrorEv(ReplyFailure), json);
    var saved := msgs.CreateMessage(conversationId, ReplyFailure, Assistant, now, SaveErrorReply !in o.failing);
    if saved.Err? {
      SendEvent(res, ErrorEv(InternalError), json);
    }
  }

  /** What a client reads from a whole turn is the wire text of its events. */
  lemma TurnWireText(events: seq<Event>, json: EventData -> string)
    ensures Concat(FrameWrites(Frames(events, json))) == WireText(Frames(events, json))
  {
    WritesAreWireText(Frames(events, json));
  }

  // ---------------------------------------------------------------------------
  // Properties of a turn
  // ---------------------------------------------------------------------------

  /** The text a reader collects from the `message` events of a stream, in order. */
  function StreamedText(es: seq<Event>): string
  {
    if es == [] then ""
    else (if es[0].kind == MessageEvent && es[0].data.chunk.Some? then es[0].data.chunk.value else "") + StreamedText(es[1..])
  }

  lemma {:induction false} StreamedTextAppend(a: seq<Event>, b: seq<Event>)
    ensures StreamedText(a + b) == StreamedText(a) + StreamedText(b)
  {
    if a == [] {
      assert a + b == b;
    } else {
      assert (a + b)[1..] == a[1..] + b;
      StreamedTextAppend(a[1..], b);
    }
  }

  /** The chunk events of a stream carry its items, so their text is the items' concatenation. */
  lemma {:induction false} ChunkEventsText(id: Id, chunks: seq<string>, conversationId: Id)
    ensures StreamedText(ChunkEvents(id, chunks, conversationId)) == Concat(chunks)
  {
    if chunks != [] {
      assert ChunkEvents(id, chunks, conversationId)
          == [Event(MessageEvent, ChunkData(id, chunks[0], conversationId))] + ChunkEvents(id, chunks[1..], conversationId);
      StreamedTextAppend([Event(MessageEvent, ChunkData(id, chunks[0], conversationId))], ChunkEvents(id, chunks[1..], conversationId));
      ChunkEventsText(id, chunks[1..], conversationId);
    }
  }

  /** The apology of the reply's catch, followed by "Internal server error" when saving it throws. */
  predicate Apology(es: seq<Event>)
  {
    es == [ErrorEv(ReplyFailure)] || es == [ErrorEv(ReplyFailure), ErrorEv(InternalError)]
  }

  /** What may follow `done`: nothing, one `titleUpdate`, or the apology. */
  predicate AfterDone(es: seq<Event>)
  {
    es == [] || (|es| == 1 && es[0].kind == TitleUpdateEvent) || Apology(es)
  }

  /** What follows the chunks: the apology, or `done` and what may follow it. */
  predicate AfterStream(es: seq<Event>)
  {
    Apology(es) || (|es| >= 1 && es[0].kind == DoneEvent && AfterDone(es[1..]))
  }

  /**
   * The event grammar of one turn with `chunks` provider items: a sole `error`, or
   * `initial`, one `message` per item, then `AfterStream`.
   */
  predicate TurnGrammar(es: seq<Event>, chunks: nat)
  {
    || (|es| == 1 && es[0].kind == ErrorEvent)
    || (&& |es| > chunks + 1
        && es[0].kind == InitialEvent
        && (forall i :: 1 <= i <= chunks ==> es[i].kind == MessageEvent)
        && AfterStream(es[chunks + 1..]))
  }

  /** The reply's catch: the apology is sent, and saved unless that save throws. */
  lemma ReplyFailedShape(events: seq<Event>, conversationId: Id, t: Tables, o: Oracle, now: Timestamp, contents: seq<Content>)
    ensures var r := ReplyFailed(events, conversationId, t, o, now, contents);
            && r.events[..|events|] == events && Apology(r.events[|events|..])
            && r.tables.conversations == t.conversations
            && (SaveErrorReply in o.failing ==> r.tables.messages == t.messages)
            && (SaveErrorReply !in o.failing ==>
                  r.tables.messages == t.messages + [NewMessage(t.messages, conversationId, ReplyFailure, Assistant, now)])
            && r.request == Some(contents) && r.ends == 1
  {
    var r := ReplyFailed(events, conversationId, t, o, now, contents);
    if SaveErrorReply in o.failing {
      assert r.events == events + [ErrorEv(ReplyFailure), ErrorEv(InternalError)];
    } else {
      assert r.events == events + [ErrorEv(ReplyFailure)];
    }
  }

  /** The title step keeps `done` and what came before it, and adds a title update or the apology. */
  lemma TitleStepShape(done: seq<Event>, conv: Conversation, content: string, generated: Result<string>,
                       t: Tables, o: Oracle, now: Timestamp, contents: seq<Content>)
    ensures var r := TitleStep(done, conv, content, generated, t, o, now, contents);
            && r.events[..|done|] == done && AfterDone(r.events[|done|..])
            && r.tables.messages[..|t.messages|] == t.messages
            && r.request == Some(contents) && r.ends == 1
  {
    var r := TitleStep(done, conv, content, generated, t, o, now, contents);
    if conv.title == Sentinel {
      if !(generated.Ok? && SaveTitle !in o.failing) && SaveFallbackTitle in o.failing {
        ReplyFailedShape(done, conv.id, t, o, now, contents);
      } else {
        assert r.events[|done|..] == [r.events[|done|]];
      }
    } else {
      assert r.events[|done|..] == [];
    }
  }

  /** The reply's catch after the stream, as `Converse` takes it: the stream and the apology, the user message kept. */
  lemma FailedBranchShape(r: Turn, streamed: seq<Event>, conversationId: Id, t1: Tables, base: seq<Message>, um: Message,
                          o: Oracle, now: Timestamp, contents: seq<Content>)
    requires t1.messages == base + [um]
    requires r == ReplyFailed(streamed, conversationId, t1, o, now, contents)
    ensures |r.events| > |streamed| && r.events[..|streamed|] == streamed && Apology(r.events[|streamed|..])
    ensures r.events[|streamed|].kind != DoneEvent
    ensures r.tables.messages[..|base| + 1] == base + [um]
    ensures r.request == Some(contents) && r.ends == 1
  {
    ReplyFailedShape(streamed, conversationId, t1, o, now, contents);
    assert r.tables.messages[..|base| + 1] == t1.messages[..|base| + 1];
  }

  /** The title step after `done`, as `Converse` takes it: the stream, `done`, then what may follow it. */
  lemma DoneBranchShape(r: Turn, streamed: seq<Event>, doneEv: Event, conv: Conversation, content: string,
                        generated: Result<string>, t2: Tables, base: seq<Message>, um: Message, reply: Message,
                        o: Oracle, now: Timestamp, contents: seq<Content>)
    requires doneEv.kind == DoneEvent
    requires t2.messages == base + [um] + [reply]
    requires r == TitleStep(streamed + [doneEv], conv, content, generated, t2, o, now, contents)
    ensures |r.events| > |streamed| && r.events[..|streamed|] == streamed && r.events[|streamed|] == doneEv
    ensures AfterStream(r.events[|streamed|..])
    ensures r.tables.messages[..|base| + 2] == base + [um, reply]
    ensures r.tables.messages[..|base| + 1] == base + [um]
    ensures r.request == Some(contents) && r.ends == 1
  {
    var done := streamed + [doneEv];
    TitleStepShape(done, conv, content, generated, t2, o, now, contents);
    var n := |streamed|;
    assert r.events[..n] == r.events[..|done|][..n];
    assert r.events[n..] == [r.events[n]] + r.events[|done|..];
    assert r.tables.messages[..|base| + 2] == r.tables.messages[..|t2.messages|];
    assert r.tables.messages[..|base| + 1] == r.tables.messages[..|t2.messages|][..|base| + 1];
  }

  /**
   * Once the user message is saved: `initial` carrying it, one `message` per provider
   * item, and then the apology or `done`; `done` is sent exactly when the stream completes
   * and the reply is saved, and it carries that reply.
   */
  lemma ConverseStructure(conv: Conversation, history: seq<HistoryEntry>, content: string, t: Tables, o: Oracle, now: Timestamp)
    requires SaveUserMessage !in o.failing
    ensures var r := Converse(conv, history, content, t, o, now);
            var um := NewMessage(t.messages, conv.id, content, User, now);
            var n := |o.provider.items|;
            && |r.events| > n + 1
            && r.events[..n + 1] == [Event(InitialEvent, InitialData(conv.id, um))] + ChunkEvents(o.assistantId, o.provider.items, conv.id)
            && AfterStream(r.events[n + 1..])
            && (r.events[n + 1].kind == DoneEvent <==> o.provider.completes && SaveReply !in o.failing)
            && (r.events[n + 1].kind == DoneEvent ==>
                  var reply := NewMessage(t.messages + [um], conv.id, Concat(o.provider.items), Assistant, now);
                  r.events[n + 1] == Event(DoneEvent, DoneData(conv.id, reply))
                  && r.tables.messages[..|t.messages| + 2] == t.messages + [um, reply])
            && r.tables.messages[..|t.messages| + 1] == t.messages + [um]
            && r.request == Some(BuildContents(content, history))
            && r.ends == 1
  {
    var r := Converse(conv, history, content, t, o, now);
    var um := NewMessage(t.messages, conv.id, content, User, now);
    var t1 := t.(messages := t.messages + [um]);
    var contents := BuildContents(content, history);
    var streamed := [Event(InitialEvent, InitialData(conv.id, um))] + ChunkEvents(o.assistantId, o.provider.items, conv.id);
    if !o.provider.completes || SaveReply in o.failing {
      assert r == ReplyFailed(streamed, conv.id, t1, o, now, contents);
      FailedBranchShape(r, streamed, conv.id, t1, t.messages, um, o, now, contents);
    } else {
      var reply := NewMessage(t1.messages, conv.id, Concat(o.provider.items), Assistant, now);
      var t2 := t1.(messages := t1.messages + [reply]);
      var doneEv := Event(DoneEvent, DoneData(conv.id, reply));
      assert r == TitleStep(streamed + [doneEv], conv, content, GenerateChatTitle(o.title), t2, o, now, contents);
      DoneBranchShape(r, streamed, doneEv, conv, content, GenerateChatTitle(o.title), t2, t.messages, um, reply, o, now, contents);
    }
  }

  /** From the resolved conversation on, the turn follows the event grammar and ends once. */
  lemma ConverseGrammar(conv: Conversation, history: seq<HistoryEntry>, content: string, t: Tables, o: Oracle, now: Timestamp)
    ensures var r := Converse(conv, history, content, t, o, now);
            && TurnGrammar(r.events, |o.provider.items|)
            && r.ends == 1
            && (|r.events| == 1 ==> r.events == [ErrorEv(InternalError)])
  {
    if SaveUserMessage !in o.failing {
      var r := Converse(conv, history, content, t, o, now);
      var n := |o.provider.items|;
      ConverseStructure(conv, history, content, t, o, now);
      forall i | 1 <= i <= n ensures r.events[i].kind == MessageEvent {
        assert r.events[i] == r.events[..n + 1][i];
      }
      assert r.events[0] == r.events[..n + 1][0];
    }
  }

  /** Every turn follows the event grammar; the response is ended twice only on the not-found path. */
  lemma RelayGrammar(req: SendRequest, userId: Id, t: Tables, o: Oracle, now: Timestamp)
    ensures var r := Relay(req, userId, t, o, now);
            && TurnGrammar(r.events, |o.provider.items|)
            && r.ends >= 1
            && (r.ends == 2 <==> r.events == [ErrorEv(NotFound)])
  {
    match Resolve(req, userId, t, o, now)
    case Rejected(_, _) =>
    case Resolved(content, conv, history, t1) => ConverseGrammar(conv, history, content, t1, o, now);
  }

  /** Content that fails the schema yields exactly one event, "Invalid input data", and no store write. */
  lemma InvalidInputRejected(req: SendRequest, userId: Id, t: Tables, o: Oracle, now: Timestamp)
    requires !(req.content.Text? && 1 <= |req.content.text| <= MaxContentLength) || req.conversationId.NotText?
    ensures Relay(req, userId, t, o, now) == Turn([ErrorEv(InvalidInput)], t, 1, None)
  {
  }

  /**
   * A conversation id the caller does not own yields a sole "Conversation not found",
   * before any store write and without calling the provider.
   */
  lemma ForeignConversationRejected(req: SendRequest, userId: Id, t: Tables, o: Oracle, now: Timestamp)
    requires ParseBody(req).Some? && Truthy(ParseBody(req).value.1)
    requires forall c :: c in t.conversations && c.id == ParseBody(req).value.1.value ==> c.userId != userId
    ensures Relay(req, userId, t, o, now) == Turn([ErrorEv(NotFound)], t, 2, None)
  {
  }

  /**
   * Without a conversation id exactly one conversation is created: fresh, owned by the
   * caller, titled "New Chat", appended behind the unchanged existing rows; the provider
   * is asked with an empty history.
   */
  lemma NewConversationCreated(req: SendRequest, userId: Id, t: Tables, o: Oracle, now: Timestamp)
    requires ParseBody(req).Some? && !Truthy(ParseBody(req).value.1) && CreateConversation !in o.failing
    ensures var r := Relay(req, userId, t, o, now);
            var c := NewConversation(t.conversations, userId, Sentinel, now);
            var k := |t.conversations|;
            && c.title == Sentinel
            && (forall i :: 0 <= i < k ==> t.conversations[i].id != c.id)
            && |r.tables.conversations| == k + 1
            && r.tables.conversations[..k] == t.conversations
            && r.tables.conversations[k].id == c.id && r.tables.conversations[k].userId == userId
            && (r.request.Some? ==> ContentsHistory(r.request.value) == [HistoryEntry("user", ParseBody(req).value.0)])
  {
    var r := Relay(req, userId, t, o, now);
    var res := Resolve(req, userId, t, o, now);
    var c := res.conv;
    var k := |t.conversations|;
    TurnConversations(res.conv, res.history, res.content, res.tables, o, now);
    var rows := r.tables.conversations;
    assert forall i :: 0 <= i < k ==> res.tables.conversations[i] == t.conversations[i];
    assert rows[..k] == t.conversations;
    if SaveUserMessage !in o.failing {
      ConverseStructure(res.conv, res.history, res.content, res.tables, o, now);
      BuildContentsRoundTrip(res.content, []);
    }
  }

  /**
   * With a conversation id that names a conversation of the caller, and the history read
   * and the user message saved, the provider history is the stored messages of that
   * conversation in creation order, as role and content, followed by the new prompt.
   */
  lemma ExistingConversationHistory(req: SendRequest, userId: Id, t: Tables, o: Oracle, now: Timestamp)
    requires ParseBody(req).Some? && Truthy(ParseBody(req).value.1)
    requires GetConversation(t.conversations, ParseBody(req).value.1.value, userId, LookupConversation !in o.failing).Some?
    requires FetchHistory !in o.failing && SaveUserMessage !in o.failing
    ensures var r := Relay(req, userId, t, o, now);
            var stored := ConversationMessages(t.messages, ParseBody(req).value.1.value);
            var h := ContentsHistory(r.request.value);
            && r.request == Some(BuildContents(ParseBody(req).value.0, History(stored)))
            && |h| == |stored| + 1
            && (forall i :: 0 <= i < |stored| ==> h[i] == HistoryEntry(RoleName(stored[i].role), stored[i].content))
            && h[|stored|] == HistoryEntry("user", ParseBody(req).value.0)
            && |r.tables.conversations| == |t.conversations|
  {
    var res := Resolve(req, userId, t, o, now);
    ConverseStructure(res.conv, res.history, res.content, res.tables, o, now);
    TurnConversations(res.conv, res.history, res.content, res.tables, o, now);
    BuildContentsRoundTrip(res.content, res.history);
  }

  /** Events other than `message` add no text. */
  lemma {:induction false} NoChunksNoText(es: seq<Event>)
    requires forall j :: 0 <= j < |es| ==> es[j].kind != MessageEvent
    ensures StreamedText(es) == ""
  {
    if es != [] {
      NoChunksNoText(es[1..]);
    }
  }

  /**
   * Where each kind of event can stand in the events of an exchange with `n` provider
   * items: `initial` at 0, the `message` events at 1..n, `done` at n + 1 exactly when the
   * stream completed and the reply was saved, and `titleUpdate` only last, at n + 2.
   */
  lemma ConverseKinds(conv: Conversation, history: seq<HistoryEntry>, content: string, t: Tables, o: Oracle, now: Timestamp)
    ensures var r := Converse(conv, history, content, t, o, now);
            var n := |o.provider.items|;
            var saved := SaveUserMessage !in o.failing;
            var replied := saved && o.provider.completes && SaveReply !in o.failing;
            forall j :: 0 <= j < |r.events| ==>
              && (r.events[j].kind == InitialEvent <==> saved && j == 0)
              && (r.events[j].kind == MessageEvent <==> saved && 1 <= j <= n)
              && (r.events[j].kind == DoneEvent <==> replied && j == n + 1)
              && (r.events[j].kind == TitleUpdateEvent ==> replied && j == n + 2 && j == |r.events| - 1)
  {
    var r := Converse(conv, history, content, t, o, now);
    var n := |o.provider.items|;
    if SaveUserMessage !in o.failing {
      ConverseStructure(conv, history, content, t, o, now);
      var tail := r.events[n + 1..];
      forall j | 0 <= j < |r.events|
        ensures r.events[j].kind == InitialEvent <==> j == 0
        ensures r.events[j].kind == MessageEvent <==> 1 <= j <= n
        ensures r.events[j].kind == DoneEvent <==> o.provider.completes && SaveReply !in o.failing && j == n + 1
        ensures r.events[j].kind == TitleUpdateEvent ==> o.provider.completes && SaveReply !in o.failing && j == n + 2 && j == |r.events| - 1
      {
        if j <= n {
          assert r.events[j] == r.events[..n + 1][j];
        } else {
          assert r.events[j] == tail[j - n - 1];
          if j > n + 1 {
            assert r.events[j] == tail[1..][j - n - 2];
          }
        }
      }
    }
  }

  /**
   * `initial` is the first event and the only one of its kind. It carries the
   * conversation id and the user message, which is stored with a fresh id before it is sent.
   */
  lemma InitialAfterUserMessage(conv: Conversation, history: seq<HistoryEntry>, content: string, t: Tables, o: Oracle, now: Timestamp, i: nat)
    requires i < |Converse(conv, history, content, t, o, now).events|
    requires Converse(conv, history, content, t, o, now).events[i].kind == InitialEvent
    ensures var r := Converse(conv, history, content, t, o, now);
            var um := NewMessage(t.messages, conv.id, content, User, now);
            && i == 0 && SaveUserMessage !in o.failing
            && r.events[0].data == InitialData(conv.id, um)
            && um in r.tables.messages && um.role == User && um.content == content
            && (forall m :: m in t.messages ==> m.id != um.id)
            && (forall j :: 0 <= j < |r.events| && j != i ==> r.events[j].kind != InitialEvent)
  {
    var r := Converse(conv, history, content, t, o, now);
    var n := |o.provider.items|;
    ConverseKinds(conv, history, content, t, o, now);
    ConverseStructure(conv, history, content, t, o, now);
    var um := NewMessage(t.messages, conv.id, content, User, now);
    assert r.events[0] == r.events[..n + 1][0];
    assert um == r.tables.messages[..|t.messages| + 1][|t.messages|];
  }

  /**
   * Every `message` event follows `initial` and carries the next provider item, the reply
   * id and the conversation id.
   */
  lemma ChunkEventsAgree(conv: Conversation, history: seq<HistoryEntry>, content: string, t: Tables, o: Oracle, now: Timestamp, i: nat)
    requires i < |Converse(conv, history, content, t, o, now).events|
    requires Converse(conv, history, content, t, o, now).events[i].kind == MessageEvent
    ensures var r := Converse(conv, history, content, t, o, now);
            && 1 <= i <= |o.provider.items|
            && r.events[0].kind == InitialEvent
            && r.events[i].data == ChunkData(o.assistantId, o.provider.items[i - 1], conv.id)
  {
    var r := Converse(conv, history, content, t, o, now);
    var n := |o.provider.items|;
    ConverseKinds(conv, history, content, t, o, now);
    ConverseStructure(conv, history, content, t, o, now);
    assert r.events[0] == r.events[..n + 1][0];
    assert r.events[i] == r.events[..n + 1][i];
  }

  /**
   * `done` carries an assistant message of the turn's conversation that is stored, and
   * whose content is exactly the concatenation of the chunks sent in `message` events.
   */
  lemma DoneCarriesStreamedReply(conv: Conversation, history: seq<HistoryEntry>, content: string, t: Tables, o: Oracle, now: Timestamp, i: nat)
    requires i < |Converse(conv, history, content, t, o, now).events|
    requires Converse(conv, history, content, t, o, now).events[i].kind == DoneEvent
    ensures var r := Converse(conv, history, content, t, o, now);
            var reply := r.events[i].data.assistantMessage;
            && o.provider.completes && i == |o.provider.items| + 1
            && r.events[i].data.conversationId == Some(conv.id)
            && reply.Some? && reply.value in r.tables.messages
            && reply.value.role == Assistant && reply.value.conversationId == conv.id
            && reply.value.content == Concat(o.provider.items) == StreamedText(r.events)
  {
    var r := Converse(conv, history, content, t, o, now);
    var n := |o.provider.items|;
    ConverseKinds(conv, history, content, t, o, now);
    ConverseStructure(conv, history, content, t, o, now);
    var um := NewMessage(t.messages, conv.id, content, User, now);
    var reply := NewMessage(t.messages + [um], conv.id, Concat(o.provider.items), Assistant, now);
    assert reply == r.tables.messages[..|t.messages| + 2][|t.messages| + 1];
    var head := r.events[..n + 1];
    var tail := r.events[n + 1..];
    assert r.events == head + tail;
    StreamedTextAppend(head, tail);
    StreamedTextAppend([Event(InitialEvent, InitialData(conv.id, um))], ChunkEvents(o.assistantId, o.provider.items, conv.id));
    ChunkEventsText(o.assistantId, o.provider.items, conv.id);
    forall j | 0 <= j < |tail| ensures tail[j].kind != MessageEvent {
      assert tail[j] == r.events[n + 1 + j];
    }
    NoChunksNoText(tail);
  }

  /**
   * Nothing is deleted by a turn: the stored messages stay a prefix, and the conversation
   * rows keep their ids and owners, with at most the turn's conversation retitled.
   */
  lemma TurnConversations(conv: Conversation, history: seq<HistoryEntry>, content: string, t: Tables, o: Oracle, now: Timestamp)
    ensures var r := Converse(conv, history, content, t, o, now);
            && |r.tables.conversations| == |t.conversations|
            && (forall i :: 0 <= i < |t.conversations| && t.conversations[i].id != conv.id ==>
                  r.tables.conversations[i] == t.conversations[i])
            && (forall i :: 0 <= i < |t.conversations| ==>
                  r.tables.conversations[i].id == t.conversations[i].id && r.tables.conversations[i].userId == t.conversations[i].userId)
            && |r.tables.messages| >= |t.messages| && r.tables.messages[..|t.messages|] == t.messages
  {
    var r := Converse(conv, history, content, t, o, now);
    if SaveUserMessage !in o.failing {
      ConverseStructure(conv, history, content, t, o, now);
      assert r.tables.messages[..|t.messages|] == r.tables.messages[..|t.messages| + 1][..|t.messages|];
    }
  }

  /**
   * When the provider stream or the reply save throws, no `done` and no `titleUpdate` is
   * sent: the apology follows the chunks and is stored as the conversation's reply,
   * unless that save throws too; the conversations are untouched.
   */
  lemma AiFailureApologises(conv: Conversation, history: seq<HistoryEntry>, content: string, t: Tables, o: Oracle, now: Timestamp)
    requires SaveUserMessage !in o.failing
    requires !o.provider.completes || SaveReply in o.failing
    ensures var r := Converse(conv, history, content, t, o, now);
            var n := |o.provider.items|;
            var um := NewMessage(t.messages, conv.id, content, User, now);
            var apology := NewMessage(t.messages + [um], conv.id, ReplyFailure, Assistant, now);
            && |r.events| > n + 1 && Apology(r.events[n + 1..])
            && (forall j :: 0 <= j < |r.events| ==> r.events[j].kind != DoneEvent && r.events[j].kind != TitleUpdateEvent)
            && r.tables.conversations == t.conversations
            && r.tables.messages == t.messages + [um] + (if SaveErrorReply in o.failing then [] else [apology])
  {
    var r := Converse(conv, history, content, t, o, now);
    var n := |o.provider.items|;
    var um := NewMessage(t.messages, conv.id, content, User, now);
    var streamed := [Event(InitialEvent, InitialData(conv.id, um))] + ChunkEvents(o.assistantId, o.provider.items, conv.id);
    ReplyFailedShape(streamed, conv.id, t.(messages := t.messages + [um]), o, now, BuildContents(content, history));
    forall j | 0 <= j < |r.events| ensures r.events[j].kind != DoneEvent && r.events[j].kind != TitleUpdateEvent {
      if j <= n {
        assert r.events[j] == streamed[j];
      } else {
        assert r.events[j] == r.events[n + 1..][j - n - 1];
      }
    }
  }

  /**
   * When the reply is saved but neither the generated title nor the fallback can be
   * saved, the apology is sent after `done` and stored as a second assistant message.
   */
  lemma FallbackFailureApologisesAfterDone(conv: Conversation, history: seq<HistoryEntry>, content: string, t: Tables, o: Oracle, now: Timestamp)
    requires conv.title == Sentinel
    requires SaveUserMessage !in o.failing && o.provider.completes && SaveReply !in o.failing
    requires !(GenerateChatTitle(o.title).Ok? && SaveTitle !in o.failing) && SaveFallbackTitle in o.failing
    ensures var r := Converse(conv, history, content, t, o, now);
            var n := |o.provider.items|;
            var um := NewMessage(t.messages, conv.id, content, User, now);
            var reply := NewMessage(t.messages + [um], conv.id, Concat(o.provider.items), Assistant, now);
            var apology := NewMessage(t.messages + [um, reply], conv.id, ReplyFailure, Assistant, now);
            && |r.events| > n + 2
            && r.events[n + 1] == Event(DoneEvent, DoneData(conv.id, reply))
            && Apology(r.events[n + 2..])
            && r.tables.conversations == t.conversations
            && r.tables.messages == t.messages + [um, reply] + (if SaveErrorReply in o.failing then [] else [apology])
  {
    var r := Converse(conv, history, content, t, o, now);
    var n := |o.provider.items|;
    var um := NewMessage(t.messages, conv.id, content, User, now);
    var reply := NewMessage(t.messages + [um], conv.id, Concat(o.provider.items), Assistant, now);
    var done := [Event(InitialEvent, InitialData(conv.id, um))] + ChunkEvents(o.assistantId, o.provider.items, conv.id)
                + [Event(DoneEvent, DoneData(conv.id, reply))];
    assert t.messages + [um] + [reply] == t.messages + [um, reply];
    ReplyFailedShape(done, conv.id, t.(messages := t.messages + [um, reply]), o, now, BuildContents(content, history));
    assert r.events[n + 1] == done[n + 1];
  }

  /**
   * `titleUpdate` is sent only as the last event, right after `done`, and only when the
   * conversation's title read at the start of the turn was "New Chat". It carries the
   * generated title when that was produced and saved, the fallback otherwise, and the
   * conversation's row holds that title.
   */
  lemma TitleUpdateRule(conv: Conversation, history: seq<HistoryEntry>, content: string, t: Tables, o: Oracle, now: Timestamp, i: nat)
    requires i < |Converse(conv, history, content, t, o, now).events|
    requires Converse(conv, history, content, t, o, now).events[i].kind == TitleUpdateEvent
    ensures var r := Converse(conv, history, content, t, o, now);
            && conv.title == Sentinel
            && i >= 1 && i == |r.events| - 1 && r.events[i - 1].kind == DoneEvent
            && var generated := GenerateChatTitle(o.title);
            && var title := if generated.Ok? && SaveTitle !in o.failing then generated.value else FallbackTitle(content);
            && r.events[i].data == TitleData(conv.id, title)
            && r.tables.conversations == Retitled(t.conversations, conv.id, title, now)
  {
    var r := Converse(conv, history, content, t, o, now);
    var n := |o.provider.items|;
    ConverseKinds(conv, history, content, t, o, now);
    var um := NewMessage(t.messages, conv.id, content, User, now);
    var reply := NewMessage(t.messages + [um], conv.id, Concat(o.provider.items), Assistant, now);
    var done := [Event(InitialEvent, InitialData(conv.id, um))] + ChunkEvents(o.assistantId, o.provider.items, conv.id)
                + [Event(DoneEvent, DoneData(conv.id, reply))];
    var t2 := t.(messages := t.messages + [um] + [reply]);
    assert r == TitleStep(done, conv, content, GenerateChatTitle(o.title), t2, o, now, BuildContents(content, history));
    assert r.events[i - 1].kind == DoneEvent;
  }

  /**
   * The title step that follows `done`: it ends with `titleUpdate` exactly when the title
   * was "New Chat" and the generated or the fallback title was saved, carrying that title.
   */
  lemma TitleStepLast(done: seq<Event>, conv: Conversation, content: string, generated: Result<string>,
                      t: Tables, o: Oracle, now: Timestamp, contents: seq<Content>)
    requires |done| >= 1 && done[|done| - 1].kind == DoneEvent
    ensures var r := TitleStep(done, conv, content, generated, t, o, now, contents);
            var title := if generated.Ok? && SaveTitle !in o.failing then generated.value else FallbackTitle(content);
            && |r.events| >= 1
            && (r.events[|r.events| - 1].kind == TitleUpdateEvent <==>
                  conv.title == Sentinel && ((generated.Ok? && SaveTitle !in o.failing) || SaveFallbackTitle !in o.failing))
            && (r.events[|r.events| - 1].kind == TitleUpdateEvent ==> r.events[|r.events| - 1].data == TitleData(conv.id, title))
  {
  }

  /**
   * `titleUpdate` is sent exactly when the conversation was "New Chat" at the start, the
   * user message and the complete reply were saved, and the generated title or the
   * fallback could be saved; it is then the last event and carries that title.
   */
  lemma TitleUpdateSent(conv: Conversation, history: seq<HistoryEntry>, content: string, t: Tables, o: Oracle, now: Timestamp)
    ensures var r := Converse(conv, history, content, t, o, now);
            var generated := GenerateChatTitle(o.title);
            var title := if generated.Ok? && SaveTitle !in o.failing then generated.value else FallbackTitle(content);
            var sent := conv.title == Sentinel && SaveUserMessage !in o.failing && o.provider.completes &&
                        SaveReply !in o.failing && ((generated.Ok? && SaveTitle !in o.failing) || SaveFallbackTitle !in o.failing);
            && |r.events| >= 1
            && (r.events[|r.events| - 1].kind == TitleUpdateEvent <==> sent)
            && (sent ==> r.events[|r.events| - 1].data == TitleData(conv.id, title))
  {
    if SaveUserMessage !in o.failing {
      var um := NewMessage(t.messages, conv.id, content, User, now);
      var t1 := t.(messages := t.messages + [um]);
      var streamed := [Event(InitialEvent, InitialData(conv.id, um))] + ChunkEvents(o.assistantId, o.provider.items, conv.id);
      var contents := BuildContents(content, history);
      assert Converse(conv, history, content, t, o, now) == ReplyStep(streamed, conv, content, t1, o, now, contents);
      if o.provider.completes && SaveReply !in o.failing {
        var reply := NewMessage(t1.messages, conv.id, Concat(o.provider.items), Assistant, now);
        var t2 := t1.(messages := t1.messages + [reply]);
        var done := streamed + [Event(DoneEvent, DoneData(conv.id, reply))];
        TitleStepLast(done, conv, content, GenerateChatTitle(o.title), t2, o, now, contents);
      }
    }
  }

  /** A conversation whose title was no longer "New Chat" at the start of the turn keeps its row. */
  lemma TitledConversationKept(conv: Conversation, history: seq<HistoryEntry>, content: string, t: Tables, o: Oracle, now: Timestamp)
    requires conv.title != Sentinel
    ensures var r := Converse(conv, history, content, t, o, now);
            && r.tables.conversations == t.conversations
            && forall j :: 0 <= j < |r.events| ==> r.events[j].kind != TitleUpdateEvent
  {
    var r := Converse(conv, history, content, t, o, now);
    forall j | 0 <= j < |r.events| ensures r.events[j].kind != TitleUpdateEvent {
      if r.events[j].kind == TitleUpdateEvent {
        TitleUpdateRule(conv, history, content, t, o, now, j);
      }
    }
  }

  // ---------------------------------------------------------------------------
  // getConversationMessages
  // ---------------------------------------------------------------------------

  datatype HttpReply = MessagesReply(messages: seq<Message>) | ErrorReply(status: nat, error: string)

  /** `getConversationMessages`: 404 unless the caller owns the conversation, checked before any read of messages. */
  function GetMessagesHandler(t: Tables, conversationId: Id, userId: Id, lookupOk: bool, fetchOk: bool): (r: HttpReply)
    ensures GetConversation(t.conversations, conversationId, userId, lookupOk).None? ==> r == ErrorReply(404, NotFound)
    ensures GetConversation(t.conversations, conversationId, userId, lookupOk).Some? && !fetchOk ==>
              r == ErrorReply(500, "Failed to fetch messages")
    ensures r.MessagesReply? <==> GetConversation(t.conversations, conversationId, userId, lookupOk).Some? && fetchOk
    ensures r.MessagesReply? ==> r.messages == ConversationMessages(t.messages, conversationId)
  {
    match GetConversation(t.conversations, conversationId, userId, lookupOk)
    case None => ErrorReply(404, NotFound)
    case Some(_) =>
      match GetConversationMessages(t.messages, conversationId, fetchOk)
      case Err(_) => ErrorReply(500, "Failed to fetch messages")
      case Ok(ms) => MessagesReply(ms)
  }

  /**
   * Messages are only ever listed to the owner of their conversation, all of them
   * belong to it, and they come in creation order.
   */
  lemma MessagesOnlyForOwner(t: Tables, conversationId: Id, userId: Id, lookupOk: bool, fetchOk: bool)
    requires GetMessagesHandler(t, conversationId, userId, lookupOk, fetchOk).MessagesReply?
    ensures exists c :: c in t.conversations && c.id == conversationId && c.userId == userId
    ensures var ms := GetMessagesHandler(t, conversationId, userId, lookupOk, fetchOk).messages;
            (forall m :: m in ms ==> m in t.messages && m.conversationId == conversationId) &&
            (forall i, j :: 0 <= i < j < |ms| ==> ms[i].createdAt <= ms[j].createdAt)
  {
    var c := GetConversation(t.conversations, conversationId, userId, lookupOk).value;
    assert c in t.conversations;
    var ms := GetMessagesHandler(t, conversationId, userId, lookupOk, fetchOk).messages;
    forall m | m in ms ensures m in t.messages && m.conversationId == conversationId {
      ListedMessagesBelong(t.messages, conversationId, m);
    }
  }
}

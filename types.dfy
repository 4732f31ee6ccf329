/**
 * The entities shared by the streaming relay and its browser client: the rows of the
 * two tables (conversations, messages) and the payloads of the server-sent event stream.
 */
module ChatTypes {

  datatype Option<T> = None | Some(value: T)

  /** A call that either returns a value or throws an Error with a message. */
  datatype Result<T> = Ok(value: T) | Err(error: string)

  /** A call that returns nothing or throws an Error with a message. */
  datatype Outcome = Pass | Fail(error: string)

  /** Identifiers are opaque strings (uuids generated by the server or the browser). */
  type Id = string

  /**
   * Timestamps are ISO-8601 strings in the source; they compare chronologically,
   * which is all that is used of them, so they are modelled as naturals.
   */
  type Timestamp = nat

  datatype Role = User | Assistant

  /** The role as it travels in a row and in the provider history. */
  function RoleName(r: Role): (name: string)
    ensures name == "user" <==> r == User
    ensures name == "assistant" <==> r == Assistant
  {
    match r
    case User => "user"
    case Assistant => "assistant"
  }

  /** A row of the `messages` table. */
  datatype Message = Message(id: Id, conversationId: Id, content: string, role: Role, createdAt: Timestamp)

  /** A row of the `conversations` table. */
  datatype Conversation = Conversation(id: Id, userId: Id, title: string, createdAt: Timestamp, updatedAt: Timestamp)

  /** The five event types of the stream. */
  datatype EventType = InitialEvent | MessageEvent | DoneEvent | ErrorEvent | TitleUpdateEvent

  /** The name written after `event: `. */
  function EventName(t: EventType): (name: string)
    ensures name != [] && '\n' !in name
  {
    match t
    case InitialEvent => "initial"
    case MessageEvent => "message"
    case DoneEvent => "done"
    case ErrorEvent => "error"
    case TitleUpdateEvent => "titleUpdate"
  }

  lemma EventNameInjective(s: EventType, t: EventType)
    requires EventName(s) == EventName(t)
    ensures s == t
  {
  }

  /** The event payload: every field is optional, as in the source's interface. */
  datatype EventData = EventData(
    conversationId: Option<Id>,
    userMessage: Option<Message>,
    chunk: Option<string>,
    id: Option<Id>,
    content: Option<string>,
    assistantMessage: Option<Message>,
    newTitle: Option<string>)

  const NoData: EventData := EventData(None, None, None, None, None, None, None)

  /** One `sendEvent(type, data)` call. */
  datatype Event = Event(kind: EventType, data: EventData)

  function InitialData(conversationId: Id, userMessage: Message): EventData
  {
    NoData.(conversationId := Some(conversationId), userMessage := Some(userMessage))
  }

  function ChunkData(id: Id, chunk: string, conversationId: Id): EventData
  {
    NoData.(id := Some(id), chunk := Some(chunk), conversationId := Some(conversationId))
  }

  function DoneData(conversationId: Id, assistantMessage: Message): EventData
  {
    NoData.(conversationId := Some(conversationId), assistantMessage := Some(assistantMessage))
  }

  function ErrorData(content: string): EventData
  {
    NoData.(content := Some(content))
  }

  function TitleData(conversationId: Id, newTitle: string): EventData
  {
    NoData.(conversationId := Some(conversationId), newTitle := Some(newTitle))
  }

  /** One `message` event per chunk, all with the same reply id and conversation id. */
  function ChunkEvents(id: Id, chunks: seq<string>, conversationId: Id): (es: seq<Event>)
    ensures |es| == |chunks|
  {
    seq(|chunks|, i requires 0 <= i < |chunks| => Event(MessageEvent, ChunkData(id, chunks[i], conversationId)))
  }

  /** JavaScript truthiness of an optional string: `undefined` and `""` are falsy. */
  predicate Truthy(s: Option<string>)
  {
    s.Some? && s.value != ""
  }

  /** `a || b` on optional strings. */
  function Or(a: Option<string>, b: Option<string>): (r: Option<string>)
    ensures Truthy(a) ==> r == a
    ensures !Truthy(a) ==> r == b
  {
    if Truthy(a) then a else b
  }

  /** The length of the longest string in `ss`. */
  function MaxLength(ss: seq<string>): (n: nat)
    ensures forall i :: 0 <= i < |ss| ==> |ss[i]| <= n
  {
    if ss == [] then 0
    else
      var m := MaxLength(ss[1..]);
      if |ss[0]| > m then |ss[0]| else m
  }

  /**
   * The fresh-value oracle behind `uuidv4()`: an identifier that differs from every
   * identifier in `used` (it is longer than all of them).
   */
  function FreshId(used: seq<Id>): (id: Id)
    ensures id !in used
  {
    var id := "uuid-" + seq(MaxLength(used), _ => '0');
    assert forall i :: 0 <= i < |used| ==> |used[i]| < |id|;
    id
  }
}

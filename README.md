# Streaming chat turn: relay, stores and browser decoder

This project models the core of a chat application in Dafny and proves properties
about that model. A signed-in user sends a message. The Express server relays it to a
text-generation provider and streams the reply back as Server-Sent Events: `initial`,
one `message` per chunk, then `done` and an optional `titleUpdate`, or `error`. It stores
the conversation and both messages in two tables and titles new conversations. The React
hook `useChatStream` reads the raw response body, cuts it into blocks at blank lines and
picks each block's `event:` and `data:` lines. It updates the visible message list, the
typing indicator and the cached conversation list. The sidebar decides whether a title is
shown as the "New Chat" placeholder, typed out by `AnimatedTitle`, or shown plainly.

Modules, one per source file of the core:

- `ChatTypes` (`types.dfy`): rows, event types and payloads (both `types/index.ts`), JS
  truthiness of optional strings, and fresh ids in place of `uuidv4`.
- `Ordering` (`ordering.dfy`): the `order by` of the two queries, as a stable insertion
  sort.
- `MessageStore`, `ConversationStore`: the two services. Queries are functions over the
  table. Writes are methods of a class that owns the rows, and each one takes
  `storeOk: bool` for the database's error path.
- `AiService`: the provider request contents, the chunk stream, and the title clean-up
  (trim, strip quotes, split on whitespace, cap at seven words).
- `EventStream`: the server's framing (`sendEvent`) and the browser's decoder, each as a
  specification function with its lemmas.
- `ChatController`: `sendMessage` as a pure relation `Relay` from request, tables and
  environment to a `Turn`. The `Turn` holds the events written, the new tables, the number
  of `res.end()` calls and the provider request. `SendMessage` is an imperative method,
  proved to perform exactly `Relay`. The module also holds `getConversationMessages`.
- `ChatStream`: the hook. There are pure event reducers (`Apply`) and a whole-turn
  function `ClientTurn`. The class `ChatStream` holds the hook's state, and its read loop
  is proved to compute `ClientTurn`.
- `RoundTrip`: lemmas linking both ends. The browser decodes exactly the relay's events,
  however the transport splits the text into reads. The reply it assembles from the chunks
  is the one the relay stored.
- `Sidebar`, `AnimatedTitle`: the title display decision, the typed-title set, and the
  typing state machine.

Environment inputs are parameters:

- the failing store calls (`Oracle.failing`);
- the provider's items and whether it completes (`ProviderStream`);
- the title model's text (`Option<string>`, `None` when it throws);
- the reply id generated by `uuidv4`;
- `JSON.stringify` (`json`) and `JSON.parse` (`parse`);
- the chunks the body reader delivers (`Transport`);
- the clock (`now`, one value per turn).

## Model

| member | source | states |
|---|---|---|
| ChatTypes.RoleName | server/src/types/index.ts:21 | the stored role text is "user" exactly for the user role and "assistant" exactly for the assistant role |
| ChatTypes.EventName | server/src/types/index.ts:41 | every event type name is non-empty and holds no newline, so it fits on one `event:` line |
| ChatTypes.EventNameInjective | server/src/types/index.ts:41 | different event types have different names, so the browser's name test picks out one type |
| ChatTypes.ChunkEvents | server/src/controllers/chatController.ts:78-86 | the relay sends one `message` event per provider chunk |
| ChatTypes.Or | src/hooks/useChatStream.ts:168 | `a \|\| b` on optional strings yields `a` when it is truthy and `b` otherwise |
| ChatTypes.FreshId | server/src/services/messageService.ts:7 | a generated id differs from every id already in use |
| Ordering.InsertBy | server/src/services/messageService.ts:32 | inserting into a sorted list keeps it sorted and adds exactly the one element |
| Ordering.SortBy | server/src/services/conversationService.ts:32 | the result is sorted by the key and is a permutation of the input |
| EventStream.FrameWrites | server/src/controllers/chatController.ts:22-25 | `sendEvent` makes two writes per event |
| EventStream.WritesAreWireText | server/src/controllers/chatController.ts:22-25 | the concatenated writes are the frames' `event:`/`data:` blocks, each followed by a blank line |
| EventStream.IndexOfSep | src/hooks/useChatStream.ts:94 | `indexOf('\n\n')`: the first blank-line separator at or after the start, or none exists |
| EventStream.FirstSepIs | src/hooks/useChatStream.ts:94 | the first separator position is the one `indexOf` returns |
| EventStream.SplitBlocks | src/hooks/useChatStream.ts:93-96 | the leftover buffer holds no separator and is no longer than the input |
| EventStream.SplitBlocksCut | src/hooks/useChatStream.ts:94-96 | cutting the first block off the buffer and splitting the remainder gives the same split |
| EventStream.SplitBlocksAppend | src/hooks/useChatStream.ts:87-96 | splitting is incremental: splitting `t + p` equals splitting `t` and then splitting its leftover plus `p` |
| EventStream.BlockThenSep | src/hooks/useChatStream.ts:94 | a block without a separator, followed by a blank line, is cut exactly at its end |
| EventStream.FrameBlockIsBlock | server/src/controllers/chatController.ts:22-25 | a frame whose payload holds no newline produces a block with no separator in it |
| EventStream.Blocks | server/src/controllers/chatController.ts:22-25 | one block per frame, in order |
| EventStream.SplitWireText | src/hooks/useChatStream.ts:87-96 | the relay's text followed by a partial block splits into exactly the relay's blocks, with the partial block left in the buffer |
| EventStream.SplitLines | src/hooks/useChatStream.ts:98 | `split('\n')` yields at least one line and no line holds a newline |
| EventStream.SplitLinesPrefix | src/hooks/useChatStream.ts:98 | splitting `a + "\n" + b` gives `a` followed by the lines of `b` |
| EventStream.SplitLinesSingle | src/hooks/useChatStream.ts:98 | a text without a newline is a single line |
| EventStream.ScanLineType | src/hooks/useChatStream.ts:103-104 | an `event: ` line sets the type to the rest of the line; any other line keeps it |
| EventStream.NoEventLineNoType | src/hooks/useChatStream.ts:99-104 | the type stays undefined exactly when no line starts with `event: ` |
| EventStream.LastEventLineWins | src/hooks/useChatStream.ts:102-104 | the type is taken from the last `event: ` line |
| EventStream.ScanLineData | src/hooks/useChatStream.ts:105-110 | a `data: ` line sets the data to what it parses to, and unparsable JSON keeps the previous data |
| EventStream.DataLineIsNotEventLine | src/hooks/useChatStream.ts:103-105 | a `data: ` line never takes the `event: ` branch |
| EventStream.LastDataLineWins | src/hooks/useChatStream.ts:102-111 | the data comes from the last `data: ` line, provided that line parses |
| EventStream.ScanSnoc | src/hooks/useChatStream.ts:102-112 | the line scan is a left fold: one more line is one more step |
| EventStream.OtherLinesIgnored | src/hooks/useChatStream.ts:102-112 | lines with neither prefix do not affect the scan |
| EventStream.ParseFrameBlock | src/hooks/useChatStream.ts:98-114 | a block the relay framed decodes to the frame's event name and payload |
| MessageStore.NewMessage | server/src/services/messageService.ts:6-18 | the inserted row has a fresh id and the given conversation, content and role |
| MessageStore.InConversation | server/src/services/messageService.ts:31 | keeps exactly the rows of the conversation, each as often as it occurs |
| MessageStore.ConversationMessages | server/src/services/messageService.ts:27-32 | exactly that conversation's rows, in ascending `created_at` order |
| MessageStore.GetConversationMessages | server/src/services/messageService.ts:27-38 | fails exactly when the store fails, with "Failed to fetch messages" |
| MessageStore.ListedMessagesBelong | server/src/services/messageService.ts:31 | every listed message is a stored row of that conversation |
| MessageStore.InsertElsewhereInvisible | server/src/services/messageService.ts:31 | a row inserted into another conversation leaves the listing unchanged |
| MessageStore.MessageService.CreateMessage | server/src/services/messageService.ts:6-25 | on success appends and returns the new row; on failure fails with "Failed to create message" and leaves the table unchanged |
| ConversationStore.NewConversation | server/src/services/conversationService.ts:7-16 | fresh id, the given owner, and the title, or "New Conversation" when the title is empty |
| ConversationStore.FindOwned | server/src/services/conversationService.ts:41-47 | finds a row with this id and this owner, and finds nothing exactly when no such row exists |
| ConversationStore.GetConversation | server/src/services/conversationService.ts:41-54 | returns the same as FindOwned when the store works, and null on a store error |
| ConversationStore.OwnedBy | server/src/services/conversationService.ts:27-31 | keeps exactly the user's rows |
| ConversationStore.UserConversations | server/src/services/conversationService.ts:27-32 | exactly the user's rows, newest `updated_at` first |
| ConversationStore.GetUserConversations | server/src/services/conversationService.ts:27-39 | fails exactly when the store fails, with "Failed to fetch conversations" |
| ConversationStore.Retitled | server/src/services/conversationService.ts:56-60 | rows with the id get the title and the update time; every other row is unchanged |
| ConversationStore.Without | server/src/services/conversationService.ts:67-71 | removes exactly the rows with the id |
| ConversationStore.CreatedIsOwned | server/src/services/conversationService.ts:7-47 | a conversation just created is found for its owner and for no other user |
| ConversationStore.FindAfterFresh | server/src/services/conversationService.ts:41-47 | after inserting a row with a fresh id, the lookup finds it exactly for its owner |
| ConversationStore.RetitleThenGet | server/src/services/conversationService.ts:56-60 | a lookup after a retitle sees the new title and time on that id and nothing else changed |
| ConversationStore.DeleteThenGet | server/src/services/conversationService.ts:67-71 | after a delete the id is not found; other lookups are unchanged |
| ConversationStore.WithoutKeepsUnique | server/src/services/conversationService.ts:67-71 | deleting keeps ids unique |
| ConversationStore.ConversationService.CreateConversation | server/src/services/conversationService.ts:7-25 | on success appends the new row and returns it; on failure fails with "Failed to create conversation" and leaves the table unchanged; ids stay unique |
| ConversationStore.ConversationService.UpdateConversationTitle | server/src/services/conversationService.ts:56-65 | the table becomes `Retitled`, or on failure is unchanged and the call fails with "Failed to update conversation title" |
| ConversationStore.ConversationService.DeleteConversation | server/src/services/conversationService.ts:67-76 | the table becomes `Without`, or on failure is unchanged and the call fails with the message naming the id |
| AiService.HistoryContents | server/src/services/aiService.ts:10-13 | one content per history entry, with its role and its text as the single part |
| AiService.BuildContents | server/src/services/aiService.ts:10-21 | the history's contents, followed by the prompt as a user content |
| AiService.BuildContentsRoundTrip | server/src/services/aiService.ts:10-21 | reading the contents back gives the history followed by the prompt as a user entry |
| AiService.GenerateResponse | server/src/services/aiService.ts:5-31 | requests exactly `BuildContents`, yields the provider's items in order, and rethrows "Failed to generate AI response" when the provider fails |
| AiService.TrimStart | server/src/services/aiService.ts:48 | removes exactly the leading whitespace |
| AiService.TrimEnd | server/src/services/aiService.ts:48 | removes exactly the trailing whitespace |
| AiService.TrimIsTrimmed | server/src/services/aiService.ts:48 | a trimmed text neither starts nor ends with whitespace |
| AiService.TrimCharacterised | server/src/services/aiService.ts:48 | trimming whitespace + t + whitespace gives t whenever t is trimmed |
| AiService.TrimStartSpaces | server/src/services/aiService.ts:48 | leading whitespace in front of a non-space is removed and nothing more |
| AiService.TrimEndSpaces | server/src/services/aiService.ts:48 | trailing whitespace after a non-space is removed and nothing more |
| AiService.StripQuotes | server/src/services/aiService.ts:51-53 | one pair of surrounding double quotes is removed; otherwise the text is unchanged |
| AiService.Fields | server/src/services/aiService.ts:55 | `split(/\s+/)`: at least one field, no field holds whitespace, and only the first and last field can be empty |
| AiService.FieldsOfWord | server/src/services/aiService.ts:55 | a word without whitespace is one field |
| AiService.FieldsOfWordRun | server/src/services/aiService.ts:55 | a word, a non-empty whitespace run and a text not starting with whitespace split into the word and the fields of that text |
| AiService.FieldsOfSpaced | server/src/services/aiService.ts:55 | splitting fields of that shape separated by any non-empty whitespace runs gives exactly those fields back, which fixes every value of `split(/\s+/)` |
| AiService.FieldsOfJoin | server/src/services/aiService.ts:55-57 | splitting words joined by spaces gives the words back |
| AiService.CapWordsFields | server/src/services/aiService.ts:55-58 | at most seven words: the text is unchanged; more: the first seven words, with "..." attached to the seventh |
| AiService.CleanTitleWordLimit | server/src/services/aiService.ts:48-60 | a cleaned title never has more than seven words |
| AiService.GenerateChatTitle | server/src/services/aiService.ts:46-64 | fails with "Failed to generate AI chat title" exactly when the model call throws; otherwise yields the model's text trimmed, unquoted and capped at seven words, which has at most seven words |
| ChatController.ParseBody | server/src/controllers/chatController.ts:9-12 | accepts exactly a string content of 1 to 4000 characters with an absent or string conversation id |
| ChatController.History | server/src/controllers/chatController.ts:46-51 | one history entry per stored message, in order, each holding that message's role name and content |
| ChatController.FallbackTitle | server/src/controllers/chatController.ts:117 | the content itself when it has at most 50 characters, otherwise its first 50 characters and "..." |
| ChatController.Resolve | server/src/controllers/chatController.ts:31-56 | invalid input yields "Invalid input data" and one end. An id the user does not own (or a failed lookup) yields "Conversation not found" and two ends. A found conversation comes with its stored history. Without an id, a new "New Chat" conversation is created with an empty history. "Internal server error" comes exactly from a failed history read after a found conversation or a failed creation, and the turn goes on exactly when neither this nor any rejection happens |
| ChatController.Frames | server/src/controllers/chatController.ts:22-25 | one frame per event |
| ChatController.FrameWritesAppend | server/src/controllers/chatController.ts:22-25 | the writes of two event runs are the writes of each, in order |
| ChatController.SendEvent | server/src/controllers/chatController.ts:22-25 | appends the event and exactly its two writes `event: <name>\n` and `data: <json>\n\n` |
| ChatController.Response.End | server/src/controllers/chatController.ts:157 | counts one more `res.end()` and writes nothing |
| ChatController.SendMessage | server/src/controllers/chatController.ts:15-158 | the events written, the new tables and the number of ends are exactly those of `Relay` |
| ChatController.Exchange | server/src/controllers/chatController.ts:58-142 | performs exactly `Converse`, the turn after the conversation is known |
| ChatController.Reply | server/src/controllers/chatController.ts:88-142 | performs exactly `ReplyStep`: the reply is saved and `done` sent, then the title step; a failed stream or save takes the apology path |
| ChatController.RelayChunks | server/src/controllers/chatController.ts:71-86 | sends one `message` event per chunk with the reply id; the accumulated text is the concatenation of the chunks |
| ChatController.Title | server/src/controllers/chatController.ts:101-124 | performs exactly `TitleStep` |
| ChatController.Fallback | server/src/controllers/chatController.ts:114-123 | performs exactly `FallbackStep` |
| ChatController.Apologise | server/src/controllers/chatController.ts:127-142 | performs exactly `ReplyFailed`: sends the apology and saves it, and when the save throws sends "Internal server error" |
| ChatController.TurnWireText | server/src/controllers/chatController.ts:22-25 | the text of a turn is its frames' blocks |
| ChatController.StreamedTextAppend | server/src/controllers/chatController.ts:78-86 | the streamed text of two event runs is the text of each, in order |
| ChatController.ChunkEventsText | server/src/controllers/chatController.ts:78-86 | the chunk events carry exactly the concatenated chunks |
| ChatController.ReplyFailedShape | server/src/controllers/chatController.ts:127-142 | after the reply fails: the apology (and "Internal server error" if saving it fails), the apology row saved unless that save fails, and conversations unchanged |
| ChatController.TitleStepShape | server/src/controllers/chatController.ts:101-124 | after `done` come nothing, one `titleUpdate`, or the apology, and no stored message is lost |
| ChatController.FailedBranchShape | server/src/controllers/chatController.ts:127-142 | when the reply fails, the streamed events are kept, then the apology, and no `done` is sent |
| ChatController.DoneBranchShape | server/src/controllers/chatController.ts:95-124 | after a saved reply the streamed events are kept, `done` follows, the two stored messages come next in the table, and the title step ends the turn |
| ChatController.ConverseStructure | server/src/controllers/chatController.ts:58-99 | `initial` with the saved user message, one `message` per item, then `done` exactly when the stream completes and the reply is saved; `done` carries the saved reply, whose content is the concatenated chunks |
| ChatController.ConverseGrammar | server/src/controllers/chatController.ts:58-158 | the events follow the turn grammar and the stream is ended once |
| ChatController.RelayGrammar | server/src/controllers/chatController.ts:30-158 | every turn is a lone `error`, or `initial, message*` followed by `done` (then nothing, `titleUpdate` or the apology) or by the apology; the stream is ended twice exactly on "Conversation not found" |
| ChatController.InvalidInputRejected | server/src/controllers/chatController.ts:143-158 | invalid input gives the single error "Invalid input data", no write and one end |
| ChatController.ForeignConversationRejected | server/src/controllers/chatController.ts:38-44 | an id that no row owned by the user has gives "Conversation not found", no write and two ends |
| ChatController.NewConversationCreated | server/src/controllers/chatController.ts:52-56 | without an id exactly one conversation with a fresh id, owned by the user, is appended, and the provider sees only the new message |
| ChatController.ExistingConversationHistory | server/src/controllers/chatController.ts:31-56 | when the id names a conversation of the caller and the history read and user message save succeed, the provider is sent each stored message's role and content in order, then the new message, and no conversation is added |
| ChatController.ConverseKinds | server/src/controllers/chatController.ts:65-124 | `initial` only first and only after the user message is saved, `message` exactly at positions 1..n, `done` exactly at n+1 when the reply is saved, and `titleUpdate` only last, right after `done` |
| ChatController.InitialAfterUserMessage | server/src/controllers/chatController.ts:58-69 | an `initial` event is the first and only one and carries the fresh, stored user message |
| ChatController.ChunkEventsAgree | server/src/controllers/chatController.ts:78-86 | every `message` event follows `initial` and carries the one reply id, its provider item and the conversation |
| ChatController.DoneCarriesStreamedReply | server/src/controllers/chatController.ts:88-99 | `done` carries a stored assistant row whose content is exactly the text streamed in the `message` events |
| ChatController.TurnConversations | server/src/controllers/chatController.ts:101-124 | a turn changes no conversation except its own, keeps every id and owner, and only appends messages |
| ChatController.AiFailureApologises | server/src/controllers/chatController.ts:127-136 | when the stream fails or the reply cannot be saved, the apology replaces `done` and `titleUpdate`, and the apology row follows the user message in the table |
| ChatController.FallbackFailureApologisesAfterDone | server/src/controllers/chatController.ts:114-136 | when both title writes fail, `done` is followed by the apology and no `titleUpdate` is sent |
| ChatController.TitleUpdateSent | server/src/controllers/chatController.ts:59-131 | the last event is `titleUpdate` exactly when the conversation was "New Chat", the user message and the complete reply were saved, and the generated title or the fallback was saved; it then carries that title |
| ChatController.TitleUpdateRule | server/src/controllers/chatController.ts:103-123 | `titleUpdate` is sent only for a "New Chat" conversation, last and right after `done`, with the generated title or the fallback title, and that title is the one stored |
| ChatController.TitledConversationKept | server/src/controllers/chatController.ts:103 | a conversation that already has a title keeps it and gets no `titleUpdate` |
| ChatController.GetMessagesHandler | server/src/controllers/chatController.ts:172-189 | a conversation the user does not own gives 404 "Conversation not found"; for an owned one a failed read gives 500 "Failed to fetch messages", and otherwise the reply is exactly the conversation's stored messages in creation order |
| ChatController.MessagesOnlyForOwner | server/src/controllers/chatController.ts:177-184 | messages are returned only for a conversation the user owns; they belong to it and are in ascending time order |
| ChatStream.Provisional | src/hooks/useChatStream.ts:48-55 | a user message with a fresh id and the content, in the given conversation or "temp-new-conversation" |
| ChatStream.WithoutId | src/hooks/useChatStream.ts:117 | the filter never lengthens the list |
| ChatStream.WithoutIdKeeps | src/hooks/useChatStream.ts:117 | a message survives the filter exactly when it was there and has another id |
| ChatStream.WithoutIdAppend | src/hooks/useChatStream.ts:117 | filtering distributes over concatenation |
| ChatStream.WithoutAbsentId | src/hooks/useChatStream.ts:117 | filtering out an absent id changes nothing |
| ChatStream.ExtendReplies | src/hooks/useChatStream.ts:157-163 | every assistant message with the id gets the chunk appended; all others are unchanged |
| ChatStream.AddChunk | src/hooks/useChatStream.ts:155-176 | with an existing reply the chunk is appended in place; otherwise a new assistant message holding the chunk is added at the end |
| ChatStream.FirstTruthy | src/hooks/useChatStream.ts:168 | `a \|\| b \|\| c \|\| 'unknown'` |
| ChatStream.ReplaceWithNotice | src/hooks/useChatStream.ts:181-190 | the provisional message is removed and a new assistant message with the text is appended after the rest, under an id that is neither the provisional id nor any id on screen |
| ChatStream.NoticeSurvivesNotice | src/hooks/useChatStream.ts:181-190 | a second notice of the same turn keeps the first one and appends after it |
| ChatStream.Prepend | src/hooks/useChatStream.ts:124-134 | the new conversation is first, followed by the old list or by nothing |
| ChatStream.TitleUpdated | src/hooks/useChatStream.ts:200-202 | the conversation with the id gets the title and stops generating; all others are unchanged |
| ChatStream.RetitleCache | src/hooks/useChatStream.ts:198-203 | an empty cache becomes the empty list; otherwise the list is retitled |
| ChatStream.RunAppend | src/hooks/useChatStream.ts:87-96 | handling two runs of blocks is handling one after the other |
| ChatStream.ReceiveAppend | src/hooks/useChatStream.ts:114-204 | dispatching two runs of events is dispatching one after the other |
| ChatStream.ProvisionalAppended | src/hooks/useChatStream.ts:45-57 | the turn starts with typing on and the provisional user message appended after the old ones |
| ChatStream.ApplyInitial | src/hooks/useChatStream.ts:115 | an `initial` with a user message takes the `initial` branch |
| ChatStream.ApplyChunk | src/hooks/useChatStream.ts:144-153 | a chunk event with an empty chunk is ignored; otherwise it takes the `message` branch |
| ChatStream.WithoutLast | src/hooks/useChatStream.ts:117-118 | filtering out the provisional message appended last restores the list before it |
| ChatStream.WithoutProvisional | src/hooks/useChatStream.ts:117-118 | filtering out the provisional message removes it and nothing else |
| ChatStream.InitialReplacesProvisional | src/hooks/useChatStream.ts:115-120 | `initial` swaps the provisional message for the stored one at the end, records the conversation id and invalidates the conversation list |
| ChatStream.InitialCachesNewConversation | src/hooks/useChatStream.ts:123-135 | for a new conversation a "New Chat" entry that is still generating is put first in the cache; otherwise the cache is unchanged |
| ChatStream.ChunkStep | src/hooks/useChatStream.ts:155-176 | one more chunk extends the growing reply by that chunk |
| ChatStream.ChunksConcatenate | src/hooks/useChatStream.ts:144-176 | after the chunk events there is a single assistant message holding their concatenation, added once the first non-empty chunk arrives, and typing is off from then on |
| ChatStream.ExtendOwnReply | src/hooks/useChatStream.ts:155-175 | a chunk for the last, only reply appends to it |
| ChatStream.ErrorEventShown | src/hooks/useChatStream.ts:177-192 | `error` stops typing, replaces the provisional message with the error text as an assistant message and invalidates the conversation list |
| ChatStream.DoneChangesNothing | src/hooks/useChatStream.ts:194-195 | `done` changes nothing |
| ChatStream.TitleUpdateRetitlesCache | src/hooks/useChatStream.ts:196-203 | `titleUpdate` retitles the cached conversation and touches no message state |
| ChatStream.TurnCleansUp | src/hooks/useChatStream.ts:224-239 | after every turn typing is off and the route's message query is invalidated, as well as the final conversation id's query when the stream reported one, or else the sent conversation id's query when it was truthy |
| ChatStream.RefusedTurnApologises | src/hooks/useChatStream.ts:208-223 | a request that fails shows the old messages followed by the fixed apology and not the provisional message |
| ChatStream.BrokenStreamApologises | src/hooks/useChatStream.ts:208-223 | a read that throws replaces the provisional message with the apology after whatever was handled |
| ChatStream.ScanEventLines | src/hooks/useChatStream.ts:98-112 | the line loop computes `ScanLines` |
| ChatStream.ChatStream.constructor | src/hooks/useChatStream.ts:35-42 | the state starts with the fetched messages or none, typing off and nothing invalidated |
| ChatStream.ChatStream.SendMessage | src/hooks/useChatStream.ts:44-240 | the hook's state after the turn is `ClientTurn` of the state before |
| ChatStream.ChatStream.ReadAll | src/hooks/useChatStream.ts:87-96 | reading all pieces handles exactly the complete blocks of their concatenation, in order |
| ChatStream.ChatStream.Drain | src/hooks/useChatStream.ts:93-96 | the inner loop handles every complete block of the buffer and leaves the leftover |
| ChatStream.ChatStream.Handle | src/hooks/useChatStream.ts:98-114 | one block is scanned and dispatched as `Deliver` says |
| ChatStream.ChatStream.Dispatch | src/hooks/useChatStream.ts:114-204 | the state changes exactly as `Apply` says |
| ChatStream.ChatStream.Fail | src/hooks/useChatStream.ts:208-223 | the catch performs `Catch` |
| ChatStream.ChatStream.CleanUp | src/hooks/useChatStream.ts:224-240 | the `finally` performs `Finally` |
| RoundTrip.FramesWellFormed | server/src/controllers/chatController.ts:22-25 | with newline-free JSON every frame is well formed |
| RoundTrip.FramesParse | src/hooks/useChatStream.ts:98-112 | each relay block decodes to its own event type and payload |
| RoundTrip.DeliverFrames | src/hooks/useChatStream.ts:93-114 | handling the relay's blocks is dispatching its events, in order |
| RoundTrip.ClientDecodesServer | src/hooks/useChatStream.ts:87-114 | however the relay's writes are split into reads, the browser handles exactly its events, in order, and keeps a trailing partial block unhandled |
| RoundTrip.TurnOverRelayWrites | src/hooks/useChatStream.ts:66-240 | a browser turn over the relay's writes is the relay's events dispatched in order, then the catch and the `finally` |
| RoundTrip.NoReplyAfterInitial | src/hooks/useChatStream.ts:117-118 | filtering and adding the user message adds no reply with the id |
| RoundTrip.StreamedReplyAssembled | src/hooks/useChatStream.ts:115-176 | after `initial` and the chunks, the list is the old messages, the stored user message, and one reply holding the concatenated chunks (if non-empty) |
| RoundTrip.ClientShowsStoredReply | server/src/controllers/chatController.ts:65-99 | when the streamed text is non-empty, the browser's last message holds exactly that text under the provider's reply id, and `done` (when sent) carries a stored reply with that same content |
| Sidebar.TitleDisplay | src/components/Layout/Sidebar.tsx:85-98 | the placeholder exactly while the title is generating or "New Chat"; otherwise animated exactly when the id has not been typed and plain exactly when it has |
| Sidebar.AnimatesOnce | src/components/Layout/Sidebar.tsx:90-98 | once the animation has completed, the title is shown plainly, and no plain title becomes animated again |
| Sidebar.InitialTyped | src/components/Layout/Sidebar.tsx:19-27 | the typed set starts as the stored ids, or empty when nothing usable is stored |
| Sidebar.SidebarState.constructor | src/components/Layout/Sidebar.tsx:19-27 | the typed set starts from storage |
| Sidebar.SidebarState.AnimationComplete | src/components/Layout/Sidebar.tsx:41-43 | adds the id and keeps every id already typed |
| Sidebar.SidebarState.NewChat | src/components/Layout/Sidebar.tsx:34-39 | empties the unsaved chat's cached message list and leaves the typed set as it is |
| AnimatedTitle.RetitleKeepsState | src/components/AnimatedTitle.tsx:9-22 | after a title change the shown text is still a prefix of the title exactly when the new title starts with what was shown |
| AnimatedTitle.RetitleBreaksState | src/components/AnimatedTitle.tsx:9-22 | a title change mid-animation can leave shown text that is not a prefix of the new title |
| AnimatedTitle.TitleAnimation.constructor | src/components/AnimatedTitle.tsx:9-10 | nothing shown, index zero |
| AnimatedTitle.TitleAnimation.Effect | src/components/AnimatedTitle.tsx:12-21 | on any state, completion is reported exactly when the index has reached the title's length; when the state is consistent the whole title is shown then (an empty title completes at once) |
| AnimatedTitle.TitleAnimation.Tick | src/components/AnimatedTitle.tsx:12-19 | fires only under the guard that scheduled it; appends the character at the index and advances it, and keeps a consistent state consistent |
| AnimatedTitle.TitleAnimation.SetTitle | src/components/AnimatedTitle.tsx:8-10 | a new title keeps the shown text and the index |

## Behaviour as coded

The model keeps these behaviours of the code, which a reader of the event protocol might not expect:

- The stream is not always ended once. For a conversation that is not found, the handler
  calls `res.end()` and then the `finally` calls it again. `Relay` counts both
  (`RelayGrammar`).
- `error` can follow `done`. If both title writes fail, the throw from the fallback write
  reaches the reply's `catch`, which sends the reply apology after `done`. No `titleUpdate`
  is sent in that case (`FallbackFailureApologisesAfterDone`). So `titleUpdate` is not
  guaranteed for every "New Chat" conversation.
- A turn can carry two `error` events. This happens when saving the apology throws: the
  outer `catch` then sends "Internal server error" as well (`Apology`).
- A failure to save the finished reply is treated like a provider failure. It is apologised
  for and recorded, because it happens inside the same `try`.
- Title generation happens where the code calls it, after `done`. Its input is the current
  message, not necessarily the conversation's first one.

## Left out

- Authentication, the auth controller, the routes, `App`, `AppLayout` and `useChat`:
  `userId` is a parameter, and the fetched message list is the constructor argument of
  `ChatStream`.
- Supabase: the tables are in-memory sequences. A database error is a boolean or a member
  of `Oracle.failing` and is not tied to a cause. Storage-assigned timestamps are the
  turn's `now`, and equal timestamps keep insertion order.
- Gemini: the prompt texts and model configuration are left out. The provider's output is
  the `ProviderStream` and title parameters.
- JSON: `JSON.stringify` and `JSON.parse` are function parameters. The round-trip lemmas
  assume they invert each other on payloads and that the output holds no raw newline.
- `fetch`, `TextDecoder` and UTF-8: the body arrives as already decoded string pieces, and
  an HTTP error, a missing body or a request that throws is `Refused`. JS strings are
  modelled as sequences of characters, not UTF-16 code units.
- HTTP status codes, headers, `flushHeaders`, the console logging and the
  `getConversations` handler (lines 161-170, a wrapper over `GetUserConversations`).
- React: state updaters are applied at once, in call order. Rendering, `navigate`,
  `isLoadingMessages` and the effect that reloads the fetched messages are left out. React
  Query is reduced to the conversation cache plus the set of invalidated keys.
  `currentEventSourceRef` is never set, so closing it is a no-op.
- Concurrency: turns do not overlap. A route change during a turn and a client disconnect
  are not modelled. `currentConvIdRef` is the fixed `route`.
- `isTitleGenerating` is a `bool`: absent and `false` are not told apart.
- Timers: `AnimatedTitle` ticks are explicit `Tick` calls, and the cleanup's
  `clearTimeout` is implied by calling `Effect` again. The sidebar passes a new completion
  callback on every render, which can run the completion effect more than once. That is
  harmless, because adding an id is idempotent.
- The effect that writes the typed set back to `localStorage` (Sidebar.tsx:29-32), and
  storage I/O in general.
- Sidebar.InitialTyped: a stored JSON value that is a string or another non-array iterable
  counts as `Malformed` (an empty set). The code would build a set of its elements.
- The sidebar's list rendering, loading skeleton and logout button.
- `DeleteConversation` is modelled, but no modelled code path calls it.

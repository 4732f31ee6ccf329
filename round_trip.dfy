/**
 * The two ends of a turn put together: what the relay writes with `sendEvent` is what
 * the browser's decoder hands to its handlers, however the transport cuts the text
 * into reads, and the reply the browser assembles from the chunks is the reply the
 * relay stored.
 */
module RoundTrip {
  import opened ChatTypes
  import opened EventStream
  import opened MessageStore
  import opened ChatController
  import opened ChatStream

  /**
   * `JSON.stringify` and `JSON.parse` as the two ends use them: the text of a payload
   * holds no raw newline, and parsing it gives the payload back.
   */
  ghost predicate Codec(json: EventData -> string, parse: string -> Parsed)
  {
    forall d :: NoNewline(json(d)) && parse(json(d)) == Value(d)
  }

  lemma FramesWellFormed(es: seq<Event>, json: EventData -> string)
    requires forall d :: NoNewline(json(d))
    ensures forall i :: 0 <= i < |es| ==> WellFormed(Frames(es, json)[i])
  {
    forall i | 0 <= i < |es| ensures WellFormed(Frames(es, json)[i]) {
      assert Frames(es, json)[i] == Frame(EventName(es[i].kind), json(es[i].data));
    }
  }

  /** Every block of the relay's frames decodes to its own event type and payload. */
  lemma FramesParse(es: seq<Event>, json: EventData -> string, parse: string -> Parsed, i: nat)
    requires Codec(json, parse)
    requires i < |es|
    ensures ParseBlock(Blocks(Frames(es, json))[i], parse) == Some((EventName(es[i].kind), es[i].data))
  {
    var f := Frames(es, json)[i];
    assert f == Frame(EventName(es[i].kind), json(es[i].data));
    assert parse(json(es[i].data)) == Value(es[i].data);
    ParseFrameBlock(f, parse, es[i].data);
  }

  /** Delivering the relay's blocks is dispatching its events, in order. */
  lemma {:induction false} DeliverFrames(p: Progress, c: Call, es: seq<Event>, json: EventData -> string, parse: string -> Parsed)
    requires Codec(json, parse)
    ensures Run(p, c, Blocks(Frames(es, json)), parse) == Receive(p, c, es)
  {
    if es != [] {
      var n := |es|;
      var bs := Blocks(Frames(es, json));
      assert bs[..n - 1] == Blocks(Frames(es[..n - 1], json));
      DeliverFrames(p, c, es[..n - 1], json, parse);
      FramesParse(es, json, parse, n - 1);
    }
  }

  /**
   * Decoder round trip: the writes of a turn's events, followed by a partial block
   * without a blank line and cut into reads in any way, decode to exactly those events'
   * types and payloads, in order; the partial block stays in the buffer and is never
   * dispatched, and the handlers see the relay's events one after another.
   */
  lemma ClientDecodesServer(es: seq<Event>, json: EventData -> string, parse: string -> Parsed,
                            pieces: seq<string>, partial: string, p: Progress, c: Call)
    requires Codec(json, parse)
    requires Concat(pieces) == Concat(FrameWrites(Frames(es, json))) + partial
    requires IndexOfSep(partial, 0).None?
    ensures var s := SplitBlocks(Concat(pieces));
            && s.rest == partial
            && |s.blocks| == |es|
            && (forall i :: 0 <= i < |es| ==> ParseBlock(s.blocks[i], parse) == Some((EventName(es[i].kind), es[i].data)))
            && Run(p, c, s.blocks, parse) == Receive(p, c, es)
  {
    var fs := Frames(es, json);
    WritesAreWireText(fs);
    FramesWellFormed(es, json);
    SplitWireText(fs, partial);
    forall i | 0 <= i < |es|
      ensures ParseBlock(SplitBlocks(Concat(pieces)).blocks[i], parse) == Some((EventName(es[i].kind), es[i].data))
    {
      FramesParse(es, json, parse, i);
    }
    DeliverFrames(p, c, es, json, parse);
  }

  /**
   * A whole browser turn over the relay's writes: the handlers see exactly the relay's
   * events, whatever the reads were, then the catch (for a read that throws) and the
   * `finally` run.
   */
  lemma TurnOverRelayWrites(v: View, content: string, conversationId: Option<Id>, route: Option<Id>,
                            pieces: seq<string>, broken: bool, parse: string -> Parsed, now: Timestamp,
                            es: seq<Event>, json: EventData -> string, partial: string)
    requires Codec(json, parse)
    requires Concat(pieces) == Concat(FrameWrites(Frames(es, json))) + partial
    requires IndexOfSep(partial, 0).None?
    ensures var temp := Provisional(v.messages, content, conversationId, now);
            var c := Call(content, conversationId, route, temp.id, now);
            var p := Receive(Progress(Start(v, temp), None), c, es);
            ClientTurn(v, content, conversationId, route, Opened(pieces, broken), parse, now) ==
              Finally(if broken then Catch(p.view, c) else p.view, c, p.final)
  {
    var temp := Provisional(v.messages, content, conversationId, now);
    var c := Call(content, conversationId, route, temp.id, now);
    ClientDecodesServer(es, json, parse, pieces, partial, Progress(Start(v, temp), None), c);
  }

  /** A message list without the reply stays without it once filtered and given a user message. */
  lemma NoReplyAfterInitial(ms: seq<Message>, tempId: Id, um: Message, id: Id)
    requires !HasReply(ms, id) && um.role == User
    ensures !HasReply(WithoutId(ms, tempId) + [um], id)
  {
    var kept := WithoutId(ms, tempId);
    forall i | 0 <= i < |kept| ensures !IsReplyTo(kept[i], id) {
      WithoutIdKeeps(ms, tempId, kept[i]);
      var j :| 0 <= j < |ms| && ms[j] == kept[i];
    }
  }

  /**
   * The opening of a turn as the browser sees it: after `initial` and the chunks, the
   * provisional message has given way to the stored user message, followed by one
   * assistant message that holds the concatenated chunks under the reply id.
   */
  lemma StreamedReplyAssembled(p: Progress, c: Call, conversationId: Id, um: Message, replyId: Id, chunks: seq<string>)
    requires conversationId != "" && replyId != "" && um.role == User
    requires !HasReply(p.view.messages, replyId)
    ensures var q := Receive(p, c, [Event(InitialEvent, InitialData(conversationId, um))] + ChunkEvents(replyId, chunks, conversationId));
            var kept := WithoutId(p.view.messages, c.tempId);
            && q.final == Some(conversationId)
            && q.view.messages ==
                 if Concat(chunks) == "" then kept + [um]
                 else kept + [um, Message(replyId, conversationId, Concat(chunks), Assistant, c.now)]
  {
    var first := [Event(InitialEvent, InitialData(conversationId, um))];
    ReceiveAppend(p, c, first, ChunkEvents(replyId, chunks, conversationId));
    var p1 := Receive(p, c, first);
    assert first[..0] == [];
    var d := InitialData(conversationId, um);
    assert p1 == Apply(p, c, EventName(InitialEvent), d);
    ApplyInitial(p, c, d);
    var kept := WithoutId(p.view.messages, c.tempId);
    assert p1.view.messages == kept + [um] && p1.final == Some(conversationId);
    NoReplyAfterInitial(p.view.messages, c.tempId, um, replyId);
    ChunksConcatenate(p1, c, replyId, chunks, conversationId);
    assert [um] + [Message(replyId, conversationId, Concat(chunks), Assistant, c.now)] ==
           [um, Message(replyId, conversationId, Concat(chunks), Assistant, c.now)];
  }

  /**
   * End to end: when the relay streams a non-empty reply, the browser ends the stream
   * with one assistant message that holds exactly the concatenated chunks, and when the
   * relay sends `done`, the stored reply it announces has that same content.
   */
  lemma ClientShowsStoredReply(conv: Conversation, history: seq<AiService.HistoryEntry>, content: string,
                               t: Tables, o: Oracle, now: Timestamp, p: Progress, c: Call)
    requires SaveUserMessage !in o.failing
    requires conv.id != "" && o.assistantId != ""
    requires !HasReply(p.view.messages, o.assistantId)
    ensures var r := Converse(conv, history, content, t, o, now);
            var n := |o.provider.items|;
            var q := Receive(p, c, if |r.events| > n + 1 then r.events[..n + 1] else []);
            var ms := q.view.messages;
            && |r.events| > n + 1
            && (Concat(o.provider.items) != "" ==>
                  && |ms| >= 1
                  && ms[|ms| - 1] == Message(o.assistantId, conv.id, Concat(o.provider.items), Assistant, c.now))
            && (r.events[n + 1].kind == DoneEvent ==>
                  r.events[n + 1].data.assistantMessage.Some? &&
                  r.events[n + 1].data.assistantMessage.value.content == Concat(o.provider.items))
  {
    var um := NewMessage(t.messages, conv.id, content, User, now);
    ConverseStructure(conv, history, content, t, o, now);
    StreamedReplyAssembled(p, c, conv.id, um, o.assistantId, o.provider.items);
  }
}

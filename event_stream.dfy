/**
 * The wire format of the chat stream: the relay writes each event as an `event: T` line
 * and a `data: P` line followed by a blank line; the browser buffers what it reads,
 * cuts the buffer at every blank line and scans each block line by line.
 * JSON is out of scope: the payload is an opaque string without a raw newline on the
 * server side, and the browser's `JSON.parse` is an oracle `parse`.
 */
module EventStream {
  import opened ChatTypes

  const EventPrefix: string := "event: "
  const DataPrefix: string := "data: "

  predicate NoNewline(s: string)
  {
    '\n' !in s
  }

  // ---------------------------------------------------------------------------
  // Encoder (server side)
  // ---------------------------------------------------------------------------

  /** The first of the two writes of `sendEvent`. */
  function EventLine(name: string): string
  {
    EventPrefix + name + "\n"
  }

  /** The second of the two writes of `sendEvent`. */
  function DataLine(payload: string): string
  {
    DataPrefix + payload + "\n\n"
  }

  /** An event as it is framed: its type name and its serialised payload. */
  datatype Frame = Frame(name: string, payload: string)

  predicate WellFormed(f: Frame)
  {
    f.name != "" && NoNewline(f.name) && NoNewline(f.payload)
  }

  /** The text of a frame without its terminating blank line. */
  function Block(f: Frame): string
  {
    EventPrefix + f.name + "\n" + DataPrefix + f.payload
  }

  /** The writes a sequence of frames produces, in order. */
  function FrameWrites(fs: seq<Frame>): (ws: seq<string>)
    ensures |ws| == 2 * |fs|
  {
    if fs == [] then [] else [EventLine(fs[0].name), DataLine(fs[0].payload)] + FrameWrites(fs[1..])
  }

  /** The concatenation of a sequence of strings (what a reader of the writes receives). */
  function Concat(ss: seq<string>): string
  {
    if ss == [] then "" else ss[0] + Concat(ss[1..])
  }

  lemma {:induction false} ConcatAppend(ss: seq<string>, tt: seq<string>)
    ensures Concat(ss + tt) == Concat(ss) + Concat(tt)
  {
    if ss == [] {
      assert ss + tt == tt;
    } else {
      assert (ss + tt)[1..] == ss[1..] + tt;
      ConcatAppend(ss[1..], tt);
    }
  }

  /** Reading one more piece extends the text read so far by that piece. */
  lemma ConcatSnoc(ss: seq<string>, k: nat)
    requires k < |ss|
    ensures Concat(ss[..k + 1]) == Concat(ss[..k]) + ss[k]
  {
    assert ss[..k + 1] == ss[..k] + [ss[k]];
    ConcatAppend(ss[..k], [ss[k]]);
    assert Concat([ss[k]]) == ss[k] + Concat([]);
  }

  /** The whole wire text of a sequence of frames. */
  function WireText(fs: seq<Frame>): string
  {
    if fs == [] then "" else Block(fs[0]) + "\n\n" + WireText(fs[1..])
  }

  /** The writes of `sendEvent` concatenate to the wire text. */
  lemma {:induction false} WritesAreWireText(fs: seq<Frame>)
    ensures Concat(FrameWrites(fs)) == WireText(fs)
  {
    if fs != [] {
      var f := fs[0];
      var ws := [EventLine(f.name), DataLine(f.payload)];
      ConcatAppend(ws, FrameWrites(fs[1..]));
      WritesAreWireText(fs[1..]);
      assert Concat(ws) == EventLine(f.name) + (DataLine(f.payload) + "");
      assert EventLine(f.name) + DataLine(f.payload) == Block(f) + "\n\n";
    }
  }

  // ---------------------------------------------------------------------------
  // Decoder (browser side)
  // ---------------------------------------------------------------------------

  /** Position `i` of `s` starts a blank line `\n\n`. */
  predicate SepAt(s: string, i: int)
  {
    0 <= i && i + 1 < |s| && s[i] == '\n' && s[i + 1] == '\n'
  }

  /** `s.indexOf('\n\n', from)`, with `None` for -1. */
  function IndexOfSep(s: string, from: nat): (r: Option<nat>)
    decreases |s| - from
    ensures r.Some? ==> from <= r.value && SepAt(s, r.value)
    ensures r.Some? ==> forall j :: from <= j < r.value ==> !SepAt(s, j)
    ensures r.None? ==> forall j :: from <= j < |s| ==> !SepAt(s, j)
  {
    if from + 1 >= |s| then None
    else if SepAt(s, from) then Some(from)
    else IndexOfSep(s, from + 1)
  }

  /** The first blank line is determined by where it is: the characterisation is unique. */
  lemma FirstSepIs(s: string, i: nat)
    requires SepAt(s, i)
    requires forall j :: 0 <= j < i ==> !SepAt(s, j)
    ensures IndexOfSep(s, 0) == Some(i)
  {
  }

  /** The complete blocks of a text and what stays in the buffer after them. */
  datatype Split = Split(blocks: seq<string>, rest: string)

  /**
   * What the inner read loop does to a buffer: cut at the first `\n\n`, keep the text
   * before it as a block, drop the two newlines, and go on with the remainder.
   */
  function SplitBlocks(s: string): (r: Split)
    decreases |s|
    ensures IndexOfSep(r.rest, 0).None?
    ensures |r.rest| <= |s|
  {
    match IndexOfSep(s, 0)
    case None => Split([], s)
    case Some(i) =>
      var tail := SplitBlocks(s[i + 2..]);
      Split([s[..i]] + tail.blocks, tail.rest)
  }

  /** A text is a block when it holds no blank line and does not end in a newline. */
  predicate IsBlock(b: string)
  {
    (forall j :: 0 <= j < |b| ==> !SepAt(b, j)) && (b != [] ==> b[|b| - 1] != '\n')
  }

  /** A separator already in the buffer stays the first one when more text arrives. */
  lemma SepStable(t: string, p: string, i: nat)
    requires IndexOfSep(t, 0) == Some(i)
    ensures IndexOfSep(t + p, 0) == Some(i)
  {
    var s := t + p;
    assert SepAt(s, i);
    forall j | 0 <= j < i ensures !SepAt(s, j) {
      assert !SepAt(t, j);
    }
    FirstSepIs(s, i);
  }

  /** `SplitBlocksAppend` when `t` holds no blank line: `t` stays in the buffer. */
  lemma AppendWithoutSep(t: string, p: string)
    requires IndexOfSep(t, 0).None?
    ensures SplitBlocks(t + p).blocks == SplitBlocks(t).blocks + SplitBlocks(SplitBlocks(t).rest + p).blocks
    ensures SplitBlocks(t + p).rest == SplitBlocks(SplitBlocks(t).rest + p).rest
  {
      assert SplitBlocks(t) == Split([], t);
      assert SplitBlocks(t).blocks + SplitBlocks(t + p).blocks == SplitBlocks(t + p).blocks;
  }

  /** The decoder's step at the first blank line of a buffer. */
  lemma SplitBlocksCut(s: string, i: nat)
    requires IndexOfSep(s, 0) == Some(i)
    ensures SplitBlocks(s) == Split([s[..i]] + SplitBlocks(s[i + 2..]).blocks, SplitBlocks(s[i + 2..]).rest)
  {
  }

  /**
   * Feeding the decoder piece by piece gives the same blocks as feeding it the whole
   * text: the blocks of `t + p` are the blocks of `t` followed by the blocks of what
   * `t` left in the buffer, extended with `p`.
   */
  lemma {:induction false} SplitBlocksAppend(t: string, p: string)
    decreases |t|
    ensures SplitBlocks(t + p).blocks == SplitBlocks(t).blocks + SplitBlocks(SplitBlocks(t).rest + p).blocks
    ensures SplitBlocks(t + p).rest == SplitBlocks(SplitBlocks(t).rest + p).rest
  {
    var first := IndexOfSep(t, 0);
    if first.None? {
      AppendWithoutSep(t, p);
    } else {
      var i := first.value;
      AppendAtSep(t, p, i);
    }
  }

  /** `SplitBlocksAppend` when `t` holds a blank line at `i`: the first block is the same in `t + p`. */
  lemma {:induction false} AppendAtSep(t: string, p: string, i: nat)
    requires IndexOfSep(t, 0) == Some(i)
    decreases |t|, 0
    ensures SplitBlocks(t + p).blocks == SplitBlocks(t).blocks + SplitBlocks(SplitBlocks(t).rest + p).blocks
    ensures SplitBlocks(t + p).rest == SplitBlocks(SplitBlocks(t).rest + p).rest
  {
    SepStable(t, p, i);
    var s := t + p;
    SplitBlocksCut(t, i);
    SplitBlocksCut(s, i);
    assert s[..i] == t[..i];
    assert s[i + 2..] == t[i + 2..] + p;
    SplitBlocksAppend(t[i + 2..], p);
    Assemble(t[..i], SplitBlocks(s), SplitBlocks(t), SplitBlocks(t[i + 2..] + p), SplitBlocks(t[i + 2..]),
             SplitBlocks(SplitBlocks(t[i + 2..]).rest + p));
  }

  /** The block-list arithmetic of one decoder step. */
  lemma Assemble(head: string, whole: Split, part: Split, wholeTail: Split, partTail: Split, after: Split)
    requires whole == Split([head] + wholeTail.blocks, wholeTail.rest)
    requires part == Split([head] + partTail.blocks, partTail.rest)
    requires wholeTail.blocks == partTail.blocks + after.blocks && wholeTail.rest == after.rest
    ensures whole.blocks == part.blocks + after.blocks && whole.rest == after.rest
  {
    assert [head] + (partTail.blocks + after.blocks) == ([head] + partTail.blocks) + after.blocks;
  }

  /** A buffer that holds a block, a blank line and more text is cut right after the block. */
  lemma BlockThenSep(b: string, rest: string)
    requires IsBlock(b)
    ensures IndexOfSep(b + "\n\n" + rest, 0) == Some(|b|)
  {
    var s := b + "\n\n" + rest;
    assert SepAt(s, |b|);
    forall j | 0 <= j < |b| ensures !SepAt(s, j) {
      if j + 1 < |b| {
        assert !SepAt(b, j);
      } else {
        assert s[j] == b[|b| - 1];
      }
    }
    FirstSepIs(s, |b|);
  }

  /** The block of a well-formed frame is a block. */
  lemma FrameBlockIsBlock(f: Frame)
    requires WellFormed(f)
    ensures IsBlock(Block(f))
  {
    var b := Block(f);
    var k := |EventPrefix| + |f.name|;
    assert b[k] == '\n';
    assert b[k + 1] == 'd';
    forall j | 0 <= j < |b| ensures !SepAt(b, j) {
      if j < k {
        assert b[j] == (EventPrefix + f.name)[j];
        if j < |EventPrefix| {
          assert b[j] == EventPrefix[j];
        } else {
          assert b[j] == f.name[j - |EventPrefix|];
        }
      } else if j > k {
        if j <= k + |DataPrefix| {
          assert b[j] == DataPrefix[j - k - 1];
        } else {
          assert b[j] == f.payload[j - k - 1 - |DataPrefix|];
        }
      }
    }
    if f.payload == [] {
      assert b[|b| - 1] == ' ';
    } else {
      assert b[|b| - 1] == f.payload[|f.payload| - 1];
    }
  }

  function Blocks(fs: seq<Frame>): (bs: seq<string>)
    ensures |bs| == |fs|
    ensures forall i :: 0 <= i < |fs| ==> bs[i] == Block(fs[i])
  {
    if fs == [] then [] else [Block(fs[0])] + Blocks(fs[1..])
  }

  /**
   * Decoder round trip at the block level: the wire text of well-formed frames,
   * followed by any partial block without a blank line, is cut into exactly the
   * frames' blocks, in order; the partial block stays in the buffer and is never
   * delivered.
   */
  lemma {:induction false} SplitWireText(fs: seq<Frame>, partial: string)
    requires forall i :: 0 <= i < |fs| ==> WellFormed(fs[i])
    requires IndexOfSep(partial, 0).None?
    ensures SplitBlocks(WireText(fs) + partial) == Split(Blocks(fs), partial)
  {
    if fs == [] {
      assert WireText(fs) + partial == partial;
    } else {
      var b := Block(fs[0]);
      var tail := WireText(fs[1..]) + partial;
      FrameBlockIsBlock(fs[0]);
      assert WireText(fs) + partial == b + "\n\n" + tail;
      BlockThenSep(b, tail);
      var s := b + "\n\n" + tail;
      assert s[..|b|] == b;
      assert s[|b| + 2..] == tail;
      SplitWireText(fs[1..], partial);
    }
  }

  // ---------------------------------------------------------------------------
  // One block, line by line
  // ---------------------------------------------------------------------------

  /** `s.split('\n')`: the lines of `s`, at least one. */
  function SplitLines(s: string): (lines: seq<string>)
    ensures |lines| >= 1
    ensures forall i :: 0 <= i < |lines| ==> NoNewline(lines[i])
  {
    if s == [] then [""]
    else if s[0] == '\n' then [""] + SplitLines(s[1..])
    else
      var r := SplitLines(s[1..]);
      [[s[0]] + r[0]] + r[1..]
  }

  lemma {:induction false} SplitLinesPrefix(a: string, b: string)
    requires NoNewline(a)
    ensures SplitLines(a + "\n" + b) == [a] + SplitLines(b)
  {
    if a == [] {
      assert a + "\n" + b == "\n" + b;
      assert ("\n" + b)[1..] == b;
    } else {
      assert (a + "\n" + b)[0] == a[0];
      assert (a + "\n" + b)[1..] == a[1..] + "\n" + b;
      SplitLinesPrefix(a[1..], b);
      assert [a[0]] + a[1..] == a;
    }
  }

  lemma {:induction false} SplitLinesSingle(a: string)
    requires NoNewline(a)
    ensures SplitLines(a) == [a]
  {
    if a != [] {
      SplitLinesSingle(a[1..]);
      assert [a[0]] + a[1..] == a;
    }
  }

  predicate StartsWith(s: string, prefix: string)
  {
    |prefix| <= |s| && s[..|prefix|] == prefix
  }

  /** What `JSON.parse` did with a data line: threw, gave a falsy value, or gave an object. */
  datatype Parsed = Malformed | Falsy | Value(data: EventData)

  /** The two variables of the inner `for` loop: the event type and the event data so far. */
  datatype BlockFields = BlockFields(eventType: Option<string>, data: Option<EventData>)

  /**
   * One line: an `event: ` line sets the type, a `data: ` line that parses sets the data
   * (a falsy parse clears it, a throwing parse leaves it), any other line is ignored.
   */
  function ScanLine(acc: BlockFields, line: string, parse: string -> Parsed): BlockFields
  {
    if StartsWith(line, EventPrefix) then acc.(eventType := Some(line[|EventPrefix|..]))
    else if StartsWith(line, DataPrefix) then
      match parse(line[|DataPrefix|..])
      case Malformed => acc
      case Falsy => acc.(data := None)
      case Value(d) => acc.(data := Some(d))
    else acc
  }

  /** The loop over the lines of a block, from both variables undefined. */
  function ScanLines(lines: seq<string>, parse: string -> Parsed): BlockFields
  {
    if lines == [] then BlockFields(None, None)
    else ScanLine(ScanLines(lines[..|lines| - 1], parse), lines[|lines| - 1], parse)
  }

  /** Only an `event: ` line changes the event type. */
  lemma ScanLineType(acc: BlockFields, line: string, parse: string -> Parsed)
    ensures ScanLine(acc, line, parse).eventType ==
            if StartsWith(line, EventPrefix) then Some(line[|EventPrefix|..]) else acc.eventType
  {
  }

  /** With no `event: ` line the type stays undefined, and only then. */
  lemma {:induction false} NoEventLineNoType(lines: seq<string>, parse: string -> Parsed)
    ensures ScanLines(lines, parse).eventType.None? <==>
            forall k :: 0 <= k < |lines| ==> !StartsWith(lines[k], EventPrefix)
  {
    if lines != [] {
      var init := lines[..|lines| - 1];
      NoEventLineNoType(init, parse);
      ScanLineType(ScanLines(init, parse), lines[|lines| - 1], parse);
      assert forall k :: 0 <= k < |init| ==> init[k] == lines[k];
    }
  }

  /** The last `event: ` line wins. */
  lemma {:induction false} LastEventLineWins(lines: seq<string>, parse: string -> Parsed, k: nat)
    requires k < |lines| && StartsWith(lines[k], EventPrefix)
    requires forall j :: k < j < |lines| ==> !StartsWith(lines[j], EventPrefix)
    ensures ScanLines(lines, parse).eventType == Some(lines[k][|EventPrefix|..])
  {
    var init := lines[..|lines| - 1];
    ScanLineType(ScanLines(init, parse), lines[|lines| - 1], parse);
    if k < |lines| - 1 {
      LastEventLineWins(init, parse, k);
    }
  }

  /** Only a `data: ` line that is not an `event: ` line changes the data, as the parse says. */
  lemma ScanLineData(acc: BlockFields, line: string, parse: string -> Parsed)
    ensures ScanLine(acc, line, parse).data ==
            if StartsWith(line, EventPrefix) || !StartsWith(line, DataPrefix) then acc.data
            else match parse(line[|DataPrefix|..])
                 case Malformed => acc.data
                 case Falsy => None
                 case Value(d) => Some(d)
  {
  }

  /** A `data: ` line is never an `event: ` line. */
  lemma DataLineIsNotEventLine(line: string)
    requires StartsWith(line, DataPrefix)
    ensures !StartsWith(line, EventPrefix)
  {
    assert line[0] == line[..|DataPrefix|][0] == 'd';
  }

  /**
   * The last `data: ` line wins when it parses: its object becomes the data, a falsy
   * value clears it.
   */
  lemma {:induction false} LastDataLineWins(lines: seq<string>, parse: string -> Parsed, k: nat)
    requires k < |lines| && StartsWith(lines[k], DataPrefix)
    requires parse(lines[k][|DataPrefix|..]) != Malformed
    requires forall j :: k < j < |lines| ==> !StartsWith(lines[j], DataPrefix)
    ensures ScanLines(lines, parse).data ==
            if parse(lines[k][|DataPrefix|..]).Value? then Some(parse(lines[k][|DataPrefix|..]).data) else None
  {
    var init := lines[..|lines| - 1];
    var last := lines[|lines| - 1];
    ScanLineData(ScanLines(init, parse), last, parse);
    if k < |lines| - 1 {
      LastDataLineWins(init, parse, k);
    } else {
      DataLineIsNotEventLine(last);
    }
  }

  /** The loop's last turn. */
  lemma ScanSnoc(lines: seq<string>, line: string, parse: string -> Parsed)
    ensures ScanLines(lines + [line], parse) == ScanLine(ScanLines(lines, parse), line, parse)
  {
    assert (lines + [line])[..|lines|] == lines;
  }

  /** A line with neither prefix can be dropped from a block without changing what it scans to. */
  lemma {:induction false} OtherLinesIgnored(a: seq<string>, line: string, b: seq<string>, parse: string -> Parsed)
    requires !StartsWith(line, EventPrefix) && !StartsWith(line, DataPrefix)
    ensures ScanLines(a + [line] + b, parse) == ScanLines(a + b, parse)
  {
    if b == [] {
      assert a + [line] + b == a + [line];
      assert a + b == a;
      ScanSnoc(a, line, parse);
    } else {
      var init := b[..|b| - 1];
      var last := b[|b| - 1];
      OtherLinesIgnored(a, line, init, parse);
      assert a + [line] + b == (a + [line] + init) + [last];
      assert a + b == (a + init) + [last];
      ScanSnoc(a + [line] + init, last, parse);
      ScanSnoc(a + init, last, parse);
    }
  }

  /** The event type of a block and its parsed data, without the truthiness test. */
  function ScanBlock(block: string, parse: string -> Parsed): BlockFields
  {
    ScanLines(SplitLines(block), parse)
  }

  /**
   * `if (eventType && eventData)`: the block is dispatched only with a non-empty type
   * and data; otherwise it is skipped.
   */
  function ParseBlock(block: string, parse: string -> Parsed): Option<(string, EventData)>
  {
    var f := ScanBlock(block, parse);
    if Truthy(f.eventType) && f.data.Some? then Some((f.eventType.value, f.data.value)) else None
  }

  /** A well-formed frame whose payload parses is decoded to its own name and data. */
  lemma ParseFrameBlock(f: Frame, parse: string -> Parsed, d: EventData)
    requires WellFormed(f)
    requires parse(f.payload) == Value(d)
    ensures ParseBlock(Block(f), parse) == Some((f.name, d))
  {
    var l1 := EventPrefix + f.name;
    var l2 := DataPrefix + f.payload;
    assert Block(f) == l1 + "\n" + l2;
    assert NoNewline(l1) by {
      assert forall i :: 0 <= i < |l1| ==> l1[i] == if i < |EventPrefix| then EventPrefix[i] else f.name[i - |EventPrefix|];
    }
    assert NoNewline(l2) by {
      assert forall i :: 0 <= i < |l2| ==> l2[i] == if i < |DataPrefix| then DataPrefix[i] else f.payload[i - |DataPrefix|];
    }
    SplitLinesPrefix(l1, l2);
    SplitLinesSingle(l2);
    var lines := [l1, l2];
    assert SplitLines(Block(f)) == lines;
    assert lines[..1] == [l1];
    assert [l1][..0] == [];
    assert StartsWith(l1, EventPrefix) && l1[|EventPrefix|..] == f.name;
    assert !StartsWith(l2, EventPrefix) by {
      assert l2[0] == 'd';
    }
    assert StartsWith(l2, DataPrefix) && l2[|DataPrefix|..] == f.payload;
    var afterEvent := BlockFields(Some(f.name), None);
    assert ScanLines([l1], parse) == ScanLine(BlockFields(None, None), l1, parse) == afterEvent;
    assert ScanLines(lines, parse) == ScanLine(afterEvent, l2, parse);
    assert ScanLine(afterEvent, l2, parse) == BlockFields(Some(f.name), Some(d));
  }
}

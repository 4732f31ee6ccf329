/**
 * The two provider-facing operations of the AI service with the provider itself as an
 * oracle: the contents sent for a streamed reply (history, then the prompt), the
 * generator that re-yields the provider's stream items, and the clean-up applied to a
 * generated title (trim, strip one pair of quotes, cap at seven words).
 */
module AiService {
  import opened ChatTypes

  // ---------------------------------------------------------------------------
  // generateResponse
  // ---------------------------------------------------------------------------

  /** A `{role, content}` pair of the conversation history. */
  datatype HistoryEntry = HistoryEntry(role: string, content: string)

  datatype Part = Part(text: string)

  /** A provider `Content`: a role and its parts. */
  datatype Content = Content(role: string, parts: seq<Part>)

  function HistoryContents(history: seq<HistoryEntry>): (cs: seq<Content>)
    ensures |cs| == |history|
    ensures forall i :: 0 <= i < |history| ==> cs[i] == Content(history[i].role, [Part(history[i].content)])
  {
    if history == [] then [] else [Content(history[0].role, [Part(history[0].content)])] + HistoryContents(history[1..])
  }

  /** The `contents` of the streaming request: each history entry as one content, then the prompt as a user content. */
  function BuildContents(prompt: string, history: seq<HistoryEntry>): (contents: seq<Content>)
    ensures |contents| == |history| + 1
    ensures contents[|history|] == Content("user", [Part(prompt)])
  {
    HistoryContents(history) + [Content("user", [Part(prompt)])]
  }

  /** Reads a contents list back as `{role, content}` pairs (the text of each first part). */
  function ContentsHistory(contents: seq<Content>): seq<HistoryEntry>
  {
    if contents == [] then []
    else
      var text := if contents[0].parts == [] then "" else contents[0].parts[0].text;
      [HistoryEntry(contents[0].role, text)] + ContentsHistory(contents[1..])
  }

  /**
   * The provider sees the history one-to-one and in order, followed by exactly one
   * user entry holding the prompt.
   */
  lemma {:induction false} BuildContentsRoundTrip(prompt: string, history: seq<HistoryEntry>)
    ensures ContentsHistory(BuildContents(prompt, history)) == history + [HistoryEntry("user", prompt)]
  {
    if history == [] {
      assert BuildContents(prompt, history) == [Content("user", [Part(prompt)])];
    } else {
      var cs := BuildContents(prompt, history);
      assert cs[1..] == BuildContents(prompt, history[1..]);
      BuildContentsRoundTrip(prompt, history[1..]);
    }
  }

  /** What the provider's stream does: yields these items, then completes or throws. */
  datatype ProviderStream = ProviderStream(items: seq<string>, completes: bool)

  const ResponseFailure: string := "Failed to generate AI response"

  /**
   * `generateResponse`: requests the stream with `BuildContents(prompt, history)` and
   * yields one chunk per stream item, in the provider's order; a provider failure is
   * rethrown with a fixed message after the items yielded so far.
   */
  method GenerateResponse(prompt: string, history: seq<HistoryEntry>, provider: ProviderStream)
    returns (contents: seq<Content>, yielded: seq<string>, failure: Option<string>)
    ensures contents == BuildContents(prompt, history)
    ensures yielded == provider.items
    ensures failure == if provider.completes then None else Some(ResponseFailure)
  {
    contents := BuildContents(prompt, history);
    yielded := [];
    var i := 0;
    while i < |provider.items|
      invariant 0 <= i <= |provider.items|
      invariant yielded == provider.items[..i]
    {
      yielded := yielded + [provider.items[i]];
      i := i + 1;
    }
    failure := if provider.completes then None else Some(ResponseFailure);
  }

  // ---------------------------------------------------------------------------
  // generateChatTitle: clean-up of the generated text
  // ---------------------------------------------------------------------------

  /** JavaScript's WhiteSpace and LineTerminator characters, used by `trim()` and `\s`. */
  predicate IsSpace(c: char)
  {
    c in {'\t', '\n', '\U{0B}', '\U{0C}', '\r', ' ', '\U{A0}', '\U{1680}',
          '\U{2000}', '\U{2001}', '\U{2002}', '\U{2003}', '\U{2004}', '\U{2005}',
          '\U{2006}', '\U{2007}', '\U{2008}', '\U{2009}', '\U{200A}',
          '\U{2028}', '\U{2029}', '\U{202F}', '\U{205F}', '\U{3000}', '\U{FEFF}'}
  }

  predicate AllSpace(s: string)
  {
    forall i :: 0 <= i < |s| ==> IsSpace(s[i])
  }

  predicate NoSpace(s: string)
  {
    forall i :: 0 <= i < |s| ==> !IsSpace(s[i])
  }

  /** Neither end of `s` is whitespace. */
  predicate Trimmed(s: string)
  {
    s == [] || (!IsSpace(s[0]) && !IsSpace(s[|s| - 1]))
  }

  /** `s` with its leading whitespace run removed. */
  function TrimStart(s: string): (r: string)
    ensures |r| <= |s| && r == s[|s| - |r|..]
    ensures AllSpace(s[..|s| - |r|])
    ensures r != [] ==> !IsSpace(r[0])
  {
    if s != [] && IsSpace(s[0]) then
      var r := TrimStart(s[1..]);
      assert s[..|s| - |r|] == [s[0]] + s[1..][..|s| - 1 - |r|];
      assert s[|s| - |r|..] == s[1..][|s| - 1 - |r|..];
      r
    else s
  }

  /** `s` with its trailing whitespace run removed. */
  function TrimEnd(s: string): (r: string)
    ensures |r| <= |s| && r == s[..|r|]
    ensures AllSpace(s[|r|..])
    ensures r != [] ==> !IsSpace(r[|r| - 1])
  {
    if s != [] && IsSpace(s[|s| - 1]) then
      var r := TrimEnd(s[..|s| - 1]);
      assert s[|r|..] == s[..|s| - 1][|r|..] + [s[|s| - 1]];
      assert s[..|r|] == s[..|s| - 1][..|r|];
      r
    else s
  }

  /** `s.trim()`. */
  function Trim(s: string): string
  {
    TrimEnd(TrimStart(s))
  }

  /** `trim()` leaves whitespace at neither end. */
  lemma TrimIsTrimmed(s: string)
    ensures Trimmed(Trim(s))
  {
    var u := TrimStart(s);
    var t := TrimEnd(u);
    if t != [] {
      assert t[0] == u[0];
    }
  }

  /**
   * `trim()` removes exactly the whitespace at both ends: whenever `s` is a trimmed
   * text surrounded by whitespace only, that text is what `trim()` returns.
   */
  lemma TrimCharacterised(x: string, t: string, y: string)
    requires AllSpace(x) && AllSpace(y) && Trimmed(t)
    ensures Trim(x + t + y) == t
  {
    var s := x + t + y;
    if t == [] {
      assert AllSpace(s) by {
        assert forall i :: 0 <= i < |s| ==> s[i] == if i < |x| then x[i] else y[i - |x|];
      }
    } else {
      TrimStartSpaces(x, t + y);
      assert s == x + (t + y);
      TrimEndSpaces(t, y);
    }
  }

  lemma {:induction false} TrimStartSpaces(x: string, rest: string)
    requires AllSpace(x)
    requires rest == [] || !IsSpace(rest[0])
    ensures TrimStart(x + rest) == rest
  {
    if x != [] {
      assert (x + rest)[1..] == x[1..] + rest;
      TrimStartSpaces(x[1..], rest);
    }
  }

  lemma {:induction false} TrimEndSpaces(t: string, y: string)
    requires AllSpace(y)
    requires t == [] || !IsSpace(t[|t| - 1])
    ensures TrimEnd(t + y) == t
  {
    if y != [] {
      assert (t + y)[..|t + y| - 1] == t + y[..|y| - 1];
      TrimEndSpaces(t, y[..|y| - 1]);
    } else {
      assert t + y == t;
    }
  }

  /**
   * `String.prototype.substring(start, end)`: both bounds are clamped to the string,
   * and swapped when `start > end`.
   */
  function Substring(s: string, start: int, end: int): string
  {
    var a := if start < 0 then 0 else if start > |s| then |s| else start;
    var b := if end < 0 then 0 else if end > |s| then |s| else end;
    if a <= b then s[a..b] else s[b..a]
  }

  /**
   * One leading and one trailing `"` are removed when both are present; a lone `"`
   * stays as it is, because `substring(1, 0)` swaps its bounds.
   */
  function StripQuotes(t: string): (r: string)
    ensures |t| >= 2 && t[0] == '"' && t[|t| - 1] == '"' ==> r == t[1..|t| - 1]
    ensures !(|t| >= 2 && t[0] == '"' && t[|t| - 1] == '"') ==> r == t
  {
    if |t| >= 1 && t[0] == '"' && t[|t| - 1] == '"' then Substring(t, 1, |t| - 1) else t
  }

  /** `s.split(/\s+/)`: the texts between maximal whitespace runs, empty at an edge with whitespace. */
  function Fields(s: string): (ws: seq<string>)
    decreases |s|
    ensures |ws| >= 1
    ensures forall i :: 0 <= i < |ws| ==> NoSpace(ws[i])
    ensures forall i :: 0 < i < |ws| - 1 ==> ws[i] != ""
    ensures s != [] && !IsSpace(s[0]) ==> ws[0] != "" && ws[0][0] == s[0]
  {
    if s == [] then [""]
    else if IsSpace(s[0]) then [""] + Fields(TrimStart(s))
    else
      var r := Fields(s[1..]);
      [[s[0]] + r[0]] + r[1..]
  }

  /** `words.join(" ")`. */
  function JoinWords(ws: seq<string>): string
    requires |ws| >= 1
  {
    if |ws| == 1 then ws[0] else ws[0] + " " + JoinWords(ws[1..])
  }

  /** The shape `Fields` produces: whitespace-free fields, non-empty except at the two ends. */
  predicate FieldShape(ws: seq<string>)
  {
    |ws| >= 1 &&
    (forall i :: 0 <= i < |ws| ==> NoSpace(ws[i])) &&
    (forall i :: 0 < i < |ws| - 1 ==> ws[i] != "")
  }

  lemma {:induction false} FieldsOfWord(w: string)
    requires NoSpace(w)
    ensures Fields(w) == [w]
  {
    if w != [] {
      FieldsOfWord(w[1..]);
      assert [w[0]] + w[1..] == w;
    }
  }

  /** A word, a whitespace run and a rest that starts with no whitespace split at the run. */
  lemma {:induction false} FieldsOfWordRun(w: string, sp: string, rest: string)
    requires NoSpace(w)
    requires sp != [] && AllSpace(sp)
    requires rest == [] || !IsSpace(rest[0])
    ensures Fields(w + sp + rest) == [w] + Fields(rest)
  {
    if w == [] {
      assert w + sp + rest == sp + rest;
      TrimStartSpaces(sp, rest);
    } else {
      var s := w + sp + rest;
      assert s[0] == w[0];
      assert s[1..] == w[1..] + sp + rest;
      FieldsOfWordRun(w[1..], sp, rest);
      assert [w[0]] + w[1..] == w;
    }
  }

  /** The fields `ws` with the whitespace run `seps[i]` between `ws[i]` and `ws[i + 1]`. */
  function Spaced(ws: seq<string>, seps: seq<string>): string
    requires |ws| >= 1 && |seps| == |ws| - 1
  {
    if |ws| == 1 then ws[0] else ws[0] + seps[0] + Spaced(ws[1..], seps[1..])
  }

  lemma {:induction false} SpacedStart(ws: seq<string>, seps: seq<string>)
    requires |ws| >= 1 && |seps| == |ws| - 1 && ws[0] != ""
    ensures Spaced(ws, seps) != [] && Spaced(ws, seps)[0] == ws[0][0]
  {
  }

  /**
   * Splitting pins the fields down: whatever non-empty whitespace runs separate fields of
   * the shape `Fields` produces, splitting the text gives back exactly those fields.
   */
  lemma {:induction false} FieldsOfSpaced(ws: seq<string>, seps: seq<string>)
    requires FieldShape(ws) && |seps| == |ws| - 1
    requires forall i :: 0 <= i < |seps| ==> seps[i] != [] && AllSpace(seps[i])
    ensures Fields(Spaced(ws, seps)) == ws
  {
    if |ws| == 1 {
      FieldsOfWord(ws[0]);
    } else {
      var rest := ws[1..];
      assert FieldShape(rest) by {
        assert forall i :: 0 < i < |rest| - 1 ==> rest[i] == ws[i + 1];
      }
      if |rest| > 1 {
        assert rest[0] == ws[1] && ws[1] != "";
        SpacedStart(rest, seps[1..]);
      } else if rest[0] != "" {
        SpacedStart(rest, seps[1..]);
      }
      FieldsOfWordRun(ws[0], seps[0], Spaced(rest, seps[1..]));
      FieldsOfSpaced(rest, seps[1..]);
      assert [ws[0]] + rest == ws;
    }
  }

  lemma {:induction false} JoinStart(ws: seq<string>)
    requires |ws| >= 1 && ws[0] != ""
    ensures JoinWords(ws) != [] && JoinWords(ws)[0] == ws[0][0]
  {
  }

  /** Splitting a join gives back the words, for every list of the shape `Fields` produces. */
  lemma {:induction false} FieldsOfJoin(ws: seq<string>)
    requires FieldShape(ws)
    ensures Fields(JoinWords(ws)) == ws
  {
    if |ws| == 1 {
      FieldsOfWord(ws[0]);
    } else {
      var rest := ws[1..];
      assert FieldShape(rest) by {
        assert forall i :: 0 < i < |rest| - 1 ==> rest[i] == ws[i + 1];
      }
      if |rest| > 1 {
        assert rest[0] == ws[1] && ws[1] != "";
        JoinStart(rest);
      } else {
        assert JoinWords(rest) == rest[0];
        if rest[0] != "" {
          JoinStart(rest);
        }
      }
      FieldsOfWordRun(ws[0], " ", JoinWords(rest));
      FieldsOfJoin(rest);
      assert [ws[0]] + rest == ws;
    }
  }

  /** Appending to a join is appending to its last word. */
  lemma {:induction false} JoinAppendLast(ws: seq<string>, x: string)
    requires |ws| >= 1
    ensures JoinWords(ws) + x == JoinWords(ws[..|ws| - 1] + [ws[|ws| - 1] + x])
  {
    if |ws| > 1 {
      JoinAppendLast(ws[1..], x);
      var ws' := ws[..|ws| - 1] + [ws[|ws| - 1] + x];
      assert ws'[1..] == ws[1..][..|ws[1..]| - 1] + [ws[1..][|ws[1..]| - 1] + x];
    }
  }

  const MaxTitleWords: nat := 7

  /** More than seven fields: the first seven joined by single spaces, then "..."; otherwise unchanged. */
  function CapWords(t: string): string
  {
    var words := Fields(t);
    if |words| > MaxTitleWords then JoinWords(words[..MaxTitleWords]) + "..." else t
  }

  /**
   * A capped title splits again into exactly seven fields: the first six of the
   * original and the seventh with "..." appended.
   */
  lemma CapWordsFields(t: string)
    ensures |Fields(t)| <= MaxTitleWords ==> CapWords(t) == t
    ensures |Fields(t)| > MaxTitleWords ==>
              Fields(CapWords(t)) == Fields(t)[..MaxTitleWords - 1] + [Fields(t)[MaxTitleWords - 1] + "..."]
  {
    var ws := Fields(t);
    if |ws| > MaxTitleWords {
      var first := ws[..MaxTitleWords];
      var capped := first[..MaxTitleWords - 1] + [first[MaxTitleWords - 1] + "..."];
      JoinAppendLast(first, "...");
      assert NoSpace("...");
      assert FieldShape(capped) by {
        assert forall i :: 0 <= i < MaxTitleWords - 1 ==> capped[i] == ws[i];
      }
      FieldsOfJoin(capped);
      assert first[..MaxTitleWords - 1] == ws[..MaxTitleWords - 1];
    }
  }

  /** The clean-up of `generateChatTitle`: trim, strip one pair of quotes, cap at seven words. */
  function CleanTitle(text: string): string
  {
    CapWords(StripQuotes(Trim(text)))
  }

  /** A cleaned title never has more than seven `/\s+/` fields. */
  lemma CleanTitleWordLimit(text: string)
    ensures |Fields(CleanTitle(text))| <= MaxTitleWords
  {
    CapWordsFields(StripQuotes(Trim(text)));
  }

  const TitleFailure: string := "Failed to generate AI chat title"

  /**
   * `generateChatTitle` with the title model as an oracle: `reply` is the model's text,
   * or `None` when the call throws, which is rethrown with a fixed message.
   */
  function GenerateChatTitle(reply: Option<string>): (r: Result<string>)
    ensures reply.None? <==> r == Err(TitleFailure)
    ensures reply.Some? ==> r == Ok(CapWords(StripQuotes(Trim(reply.value))))
    ensures reply.Some? ==> r.Ok? && |Fields(r.value)| <= MaxTitleWords
  {
    match reply
    case None => Err(TitleFailure)
    case Some(text) =>
      CleanTitleWordLimit(text);
      Ok(CleanTitle(text))
  }
}

/**
 * The streamed-response accumulation of the chat client (`onResponse` in components/Chat.tsx),
 * stated as functions over values: how one decoded chunk is cut into lines, which lines carry a
 * payload, how the running `result` grows and how the message list is upserted.
 * The imperative reader loop in ChatSession is proved against these functions.
 */
module ChatStream {
  import opened Wrappers

  /** The roles a message of the client's list can have. */
  datatype Role = System | User | Assistant | Function | Data | Tool

  /** One entry of the message list shown by the client. */
  datatype Message = Message(id: string, role: Role, content: string)

  /** The framing prefix of a line that carries a JSON payload. */
  const DataPrefix: string := "data: "

  // ---------------------------------------------------------------------------------------------
  // Cutting a chunk into lines: `chunk.split('\n')`

  /** Number of line feeds in `s`. */
  function NewlineCount(s: string): nat {
    if s == [] then 0 else (if s[0] == '\n' then 1 else 0) + NewlineCount(s[1..])
  }

  /**
   * `chunk.split('\n')`: the pieces between line feeds. There is always one more piece than there
   * are line feeds (an empty chunk gives one empty line, a trailing line feed an empty last line),
   * and no piece contains a line feed.
   */
  function SplitLines(chunk: string): (lines: seq<string>)
    ensures |lines| == NewlineCount(chunk) + 1
    ensures forall i :: 0 <= i < |lines| ==> '\n' !in lines[i]
  {
    if chunk == [] then [""]
    else
      var rest := SplitLines(chunk[1..]);
      if chunk[0] == '\n' then [""] + rest
      else [[chunk[0]] + rest[0]] + rest[1..]
  }

  /** The inverse of SplitLines: the pieces put back together with a line feed between each two. */
  function JoinLines(lines: seq<string>): string
    requires |lines| >= 1
  {
    if |lines| == 1 then lines[0] else lines[0] + "\n" + JoinLines(lines[1..])
  }

  /** Putting a character in front of the first line puts it in front of the join. */
  lemma JoinConsChar(c: char, lines: seq<string>)
    requires |lines| >= 1
    ensures JoinLines([[c] + lines[0]] + lines[1..]) == [c] + JoinLines(lines)
  {
  }

  /** Splitting loses nothing: joining the lines of a chunk gives the chunk back. */
  lemma {:induction false} JoinSplit(chunk: string)
    ensures JoinLines(SplitLines(chunk)) == chunk
  {
    if chunk != [] {
      var rest := SplitLines(chunk[1..]);
      JoinSplit(chunk[1..]);
      if chunk[0] == '\n' {
        assert ([""] + rest)[1..] == rest;
        assert JoinLines([""] + rest) == "" + "\n" + JoinLines(rest);
      } else {
        JoinConsChar(chunk[0], rest);
      }
    }
  }

  lemma {:induction false} SplitPlain(a: string)
    requires '\n' !in a
    ensures SplitLines(a) == [a]
  {
    if a != [] {
      SplitPlain(a[1..]);
      assert [a[0]] + a[1..] == a;
    }
  }

  lemma {:induction false} SplitAfterLine(a: string, b: string)
    requires '\n' !in a
    ensures SplitLines(a + "\n" + b) == [a] + SplitLines(b)
  {
    var s := a + "\n" + b;
    if a == [] {
      assert s[0] == '\n' && s[1..] == b;
    } else {
      assert s[0] == a[0];
      assert s[1..] == a[1..] + "\n" + b;
      SplitAfterLine(a[1..], b);
      assert [a[0]] + a[1..] == a;
    }
  }

  /** Lines that hold no line feed are exactly what splitting their join gives back. */
  lemma {:induction false} SplitJoin(lines: seq<string>)
    requires |lines| >= 1
    requires forall i :: 0 <= i < |lines| ==> '\n' !in lines[i]
    ensures SplitLines(JoinLines(lines)) == lines
  {
    if |lines| == 1 {
      SplitPlain(lines[0]);
    } else {
      SplitJoin(lines[1..]);
      SplitAfterLine(lines[0], JoinLines(lines[1..]));
      assert [lines[0]] + lines[1..] == lines;
    }
  }

  // ---------------------------------------------------------------------------------------------
  // Which lines contribute content

  /** `line.startsWith('data: ')`. */
  predicate IsDataLine(line: string) {
    |DataPrefix| <= |line| && line[..|DataPrefix|] == DataPrefix
  }

  /** `line.slice(6)`: the line without its framing prefix. */
  function Payload(line: string): (p: string)
    requires IsDataLine(line)
    ensures DataPrefix + p == line
    ensures |p| == |line| - 6
  {
    line[|DataPrefix|..]
  }

  /**
   * The content a line adds to `result`. `parse` stands for `JSON.parse(payload).content`:
   * None when the payload does not parse or has no string `content`. The client also skips a
   * content that is falsy, which for a string means empty.
   */
  function Accepted(line: string, parse: string -> Option<string>): (c: Option<string>)
    ensures c.Some? <==> IsDataLine(line) && parse(Payload(line)).Some? && parse(Payload(line)).value != ""
    ensures c.Some? ==> c == parse(Payload(line))
  {
    if IsDataLine(line) then
      match parse(Payload(line))
      case Some(content) => if content != "" then Some(content) else None
      case None => None
    else None
  }

  // ---------------------------------------------------------------------------------------------
  // The message-list upsert done by `setMessages`

  /** The list's last message exists and comes from the assistant. */
  predicate EndsWithAssistant(msgs: seq<Message>) {
    |msgs| > 0 && msgs[|msgs| - 1].role == Assistant
  }

  /**
   * The list after `setMessages` with the running `result`: when the last message is the
   * assistant's, only its content changes; otherwise one assistant message is appended.
   */
  function Upsert(prev: seq<Message>, result: string, newId: string): (next: seq<Message>)
    ensures EndsWithAssistant(next) && next[|next| - 1].content == result
    ensures |next| == if EndsWithAssistant(prev) then |prev| else |prev| + 1
    ensures forall i :: 0 <= i < |prev| - 1 ==> next[i] == prev[i]
    ensures EndsWithAssistant(prev) ==> next[|prev| - 1].id == prev[|prev| - 1].id
    ensures !EndsWithAssistant(prev) ==> next[..|prev|] == prev && next[|prev|].id == newId
  {
    if EndsWithAssistant(prev) then
      prev[|prev| - 1 := prev[|prev| - 1].(content := result)]
    else
      prev + [Message(newId, Assistant, result)]
  }

  /** A second upsert overwrites the first: only the last result matters, and the id is kept. */
  lemma UpsertAbsorbs(msgs: seq<Message>, first: string, second: string, id1: string, id2: string)
    ensures Upsert(Upsert(msgs, first, id1), second, id2) == Upsert(msgs, second, id1)
  {
  }

  // ---------------------------------------------------------------------------------------------
  // Folding lines and chunks

  /** What the reader loop carries: the accumulated `result` and the message list. */
  datatype Feed = Feed(result: string, messages: seq<Message>)

  /** The body of the `for (const line of lines)` loop. */
  function FeedLine(f: Feed, line: string, parse: string -> Option<string>, newId: string): Feed {
    match Accepted(line, parse)
    case None => f
    case Some(content) =>
      var result := f.result + content;
      Feed(result, Upsert(f.messages, result, newId))
  }

  /** The `for` loop over the lines of one chunk, as a fold from the left. */
  function FeedLines(f: Feed, lines: seq<string>, parse: string -> Option<string>, newId: string): Feed
    decreases |lines|
  {
    if lines == [] then f
    else FeedLine(FeedLines(f, lines[..|lines| - 1], parse, newId), lines[|lines| - 1], parse, newId)
  }

  /** The concatenation of the contents the lines contribute, in order. */
  function AcceptedText(lines: seq<string>, parse: string -> Option<string>): string
    decreases |lines|
  {
    if lines == [] then ""
    else AcceptedText(lines[..|lines| - 1], parse) + Accepted(lines[|lines| - 1], parse).GetOr("")
  }

  /** No line contributes exactly when the contributed text is empty (every contribution is non-empty). */
  lemma {:induction false} AcceptedTextEmpty(lines: seq<string>, parse: string -> Option<string>)
    ensures AcceptedText(lines, parse) == "" <==> forall i :: 0 <= i < |lines| ==> Accepted(lines[i], parse).None?
  {
    if lines != [] {
      var pre := lines[..|lines| - 1];
      AcceptedTextEmpty(pre, parse);
      assert forall i :: 0 <= i < |pre| ==> pre[i] == lines[i];
    }
  }

  /**
   * Processing lines: `result` grows by exactly the accepted contents (so the old result is a
   * prefix of the new one); lines that contribute nothing leave everything unchanged; otherwise
   * the list is the one upsert with the final result, whatever the number of accepted lines.
   */
  lemma {:induction false} FeedLinesSpec(f: Feed, lines: seq<string>, parse: string -> Option<string>, newId: string)
    ensures FeedLines(f, lines, parse, newId).result == f.result + AcceptedText(lines, parse)
    ensures AcceptedText(lines, parse) == "" ==> FeedLines(f, lines, parse, newId) == f
    ensures AcceptedText(lines, parse) != "" ==>
      FeedLines(f, lines, parse, newId).messages == Upsert(f.messages, f.result + AcceptedText(lines, parse), newId)
  {
    if lines != [] {
      var pre := lines[..|lines| - 1];
      var last := lines[|lines| - 1];
      FeedLinesSpec(f, pre, parse, newId);
      var g := FeedLines(f, pre, parse, newId);
      match Accepted(last, parse)
      case None =>
      case Some(content) =>
        var r := g.result + content;
        assert r == f.result + AcceptedText(lines, parse);
        if AcceptedText(pre, parse) != "" {
          UpsertAbsorbs(f.messages, g.result, r, newId, newId);
        }
    }
  }

  /** After an accepted payload the list ends with an assistant message holding the whole result. */
  lemma FeedLinesEndsWithResult(f: Feed, lines: seq<string>, parse: string -> Option<string>, newId: string, k: nat)
    requires k < |lines| && Accepted(lines[k], parse).Some?
    ensures var g := FeedLines(f, lines, parse, newId);
      EndsWithAssistant(g.messages) && g.messages[|g.messages| - 1].content == g.result
      && |f.result| < |g.result| && g.result[..|f.result|] == f.result
  {
    AcceptedTextEmpty(lines, parse);
    FeedLinesSpec(f, lines, parse, newId);
  }

  /** Processing the lines of `a` and then those of `b` is processing `a + b`. */
  lemma {:induction false} FeedLinesAppend(f: Feed, a: seq<string>, b: seq<string>, parse: string -> Option<string>, newId: string)
    ensures FeedLines(f, a + b, parse, newId) == FeedLines(FeedLines(f, a, parse, newId), b, parse, newId)
    decreases |b|
  {
    if b == [] {
      assert a + b == a;
    } else {
      var ab := a + b;
      assert ab[..|ab| - 1] == a + b[..|b| - 1];
      assert ab[|ab| - 1] == b[|b| - 1];
      FeedLinesAppend(f, a, b[..|b| - 1], parse, newId);
    }
  }

  /** The `while (true)` reader loop over decoded chunks: each chunk is split on its own. */
  function FeedChunks(f: Feed, chunks: seq<string>, parse: string -> Option<string>, newId: string): Feed
    decreases |chunks|
  {
    if chunks == [] then f
    else FeedLines(FeedChunks(f, chunks[..|chunks| - 1], parse, newId), SplitLines(chunks[|chunks| - 1]), parse, newId)
  }

  /** All lines the reader sees: the lines of each chunk, one chunk after the other. */
  function ChunkLines(chunks: seq<string>): seq<string>
    decreases |chunks|
  {
    if chunks == [] then [] else ChunkLines(chunks[..|chunks| - 1]) + SplitLines(chunks[|chunks| - 1])
  }

  /**
   * Between chunks nothing but the fold state is carried: reading a stream is processing, in
   * order, the lines of every chunk, with no line ever joined across a chunk boundary.
   */
  lemma {:induction false} FeedChunksIsFeedLines(f: Feed, chunks: seq<string>, parse: string -> Option<string>, newId: string)
    ensures FeedChunks(f, chunks, parse, newId) == FeedLines(f, ChunkLines(chunks), parse, newId)
    decreases |chunks|
  {
    if chunks != [] {
      var pre := chunks[..|chunks| - 1];
      FeedChunksIsFeedLines(f, pre, parse, newId);
      FeedLinesAppend(f, ChunkLines(pre), SplitLines(chunks[|chunks| - 1]), parse, newId);
    }
  }

  /**
   * A whole stream: the result is the concatenation of every accepted content, the list is
   * untouched when nothing is accepted and is otherwise the single upsert of the final result
   * (so at most one message is appended per response).
   */
  lemma FeedChunksSpec(f: Feed, chunks: seq<string>, parse: string -> Option<string>, newId: string)
    ensures var g := FeedChunks(f, chunks, parse, newId);
      var text := AcceptedText(ChunkLines(chunks), parse);
      && g.result == f.result + text
      && (text == "" ==> g == f)
      && (text != "" ==> g.messages == Upsert(f.messages, g.result, newId))
      && |f.messages| <= |g.messages| <= |f.messages| + 1
  {
    FeedChunksIsFeedLines(f, chunks, parse, newId);
    FeedLinesSpec(f, ChunkLines(chunks), parse, newId);
  }

  /**
   * A data line cut in two by a chunk boundary is lost: a `data: ` line whose payload has content
   * yields that content when it arrives as one chunk, and nothing when it arrives as "da" and the rest.
   */
  lemma SplitDataLineIsLost(payload: string, parse: string -> Option<string>, newId: string)
    requires '\n' !in payload
    requires parse(payload).Some? && parse(payload).value != ""
    ensures FeedChunks(Feed("", []), [DataPrefix + payload], parse, newId).result == parse(payload).value
    ensures FeedChunks(Feed("", []), ["da", "ta: " + payload], parse, newId).result == ""
  {
    WholeDataLineKept(payload, parse, newId);
    SplitDataLineDropped(payload, parse, newId);
  }

  /** A `data: ` line that arrives in one chunk contributes its parsed content. */
  lemma WholeDataLineKept(payload: string, parse: string -> Option<string>, newId: string)
    requires '\n' !in payload
    ensures FeedChunks(Feed("", []), [DataPrefix + payload], parse, newId).result == parse(payload).GetOr("")
  {
    var whole := DataPrefix + payload;
    assert '\n' !in whole by {
      assert forall i :: 0 <= i < |whole| - 6 ==> whole[i + 6] == payload[i];
    }
    SplitPlain(whole);
    var f0 := Feed("", []);
    assert Payload(whole) == payload;
    assert FeedLines(f0, [whole], parse, newId) == FeedLine(f0, whole, parse, newId) by {
      assert [whole][..0] == [];
    }
    assert FeedChunks(f0, [whole], parse, newId) == FeedLines(f0, [whole], parse, newId) by {
      assert [whole][..0] == [];
    }
  }

  /** The same line split after `da` leaves two pieces, neither of them a `data: ` line. */
  lemma SplitDataLineDropped(payload: string, parse: string -> Option<string>, newId: string)
    requires '\n' !in payload
    ensures FeedChunks(Feed("", []), ["da", "ta: " + payload], parse, newId).result == ""
  {
    var tail := "ta: " + payload;
    assert '\n' !in tail by {
      assert forall i :: 0 <= i < |tail| - 4 ==> tail[i + 4] == payload[i];
    }
    SplitPlain("da");
    SplitPlain(tail);
    var f0 := Feed("", []);
    assert !IsDataLine("da");
    assert !IsDataLine(tail) by {
      if |tail| >= 6 {
        assert tail[..6][0] == 't';
      }
    }
    assert FeedLines(f0, ["da"], parse, newId) == f0 by {
      assert ["da"][..0] == [];
    }
    assert FeedLines(f0, [tail], parse, newId) == f0 by {
      assert [tail][..0] == [];
    }
    assert FeedChunks(f0, ["da"], parse, newId) == f0 by {
      assert ["da"][..0] == [];
    }
    assert FeedChunks(f0, ["da", tail], parse, newId) == FeedLines(f0, [tail], parse, newId) by {
      assert ["da", tail][..1] == ["da"];
    }
  }
}

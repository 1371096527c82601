/**
 * The chat client's message list as the source holds it: a list of message objects whose
 * `content` field the stream handler overwrites in place. `setMessages` builds a shallow copy
 * (`[...prev]`), so updating the last message also changes the object the previous list holds.
 */
module ChatSession {
  import opened Wrappers
  import opened ChatStream

  /** One message object of the list. */
  class MessageObject {
    const id: string
    const role: Role
    var content: string

    constructor (id: string, role: Role, content: string)
      ensures this.id == id && this.role == role && this.content == content
    {
      this.id := id;
      this.role := role;
      this.content := content;
    }

    /** The message as a value. */
    function View(): Message
      reads this
    {
      Message(id, role, content)
    }
  }

  /** What the server answered: its `ok` flag and, when there is a body reader, the raw chunks it yields. */
  datatype Response = Response(ok: bool, body: Option<seq<seq<bv8>>>)

  /** How `onResponse` ends: it throws one of two errors, or reads the stream to `done`. */
  datatype Outcome = FailedToSend | NoReader | Streamed(result: string)

  /** `new TextDecoder().decode(value)` applied to every chunk (a fresh decoder per chunk). */
  function Decoded(chunks: seq<seq<bv8>>, decode: seq<bv8> -> string): seq<string> {
    seq(|chunks|, i requires 0 <= i < |chunks| => decode(chunks[i]))
  }

  /**
   * No decoder state crosses a chunk boundary: decoding two runs of chunks one after the other
   * gives the texts of each run, one after the other.
   */
  lemma DecodedAppend(a: seq<seq<bv8>>, b: seq<seq<bv8>>, decode: seq<bv8> -> string)
    ensures Decoded(a + b, decode) == Decoded(a, decode) + Decoded(b, decode)
  {
  }

  /** The client's message list (the `messages` state of the chat hook). */
  class MessageList {
    var items: seq<MessageObject>

    /** Each message object appears once in the list. */
    ghost predicate Valid()
      reads this
    {
      forall i, j :: 0 <= i < j < |items| ==> items[i] != items[j]
    }

    /** The list as values. */
    function Snapshot(): (msgs: seq<Message>)
      reads this, items
      ensures |msgs| == |items|
    {
      seq(|items|, i requires 0 <= i < |items| reads this, items => items[i].View())
    }

    constructor (initial: seq<Message>)
      ensures Valid() && Snapshot() == initial
    {
      var objs: seq<MessageObject> := [];
      for k := 0 to |initial|
        invariant |objs| == k
        invariant forall i :: 0 <= i < k ==> fresh(objs[i]) && objs[i].View() == initial[i]
        invariant forall i, j :: 0 <= i < j < k ==> objs[i] != objs[j]
      {
        var m := new MessageObject(initial[k].id, initial[k].role, initial[k].content);
        objs := objs + [m];
      }
      items := objs;
    }

    /**
     * The updater passed to `setMessages`: copy the list; if its last message is the assistant's,
     * overwrite that object's content, otherwise append a new assistant message.
     */
    method SetMessagesUpsert(result: string, newId: string)
      requires Valid()
      modifies this, items
      ensures Valid()
      ensures Snapshot() == Upsert(old(Snapshot()), result, newId)
      ensures EndsWithAssistant(old(Snapshot())) ==>
        items == old(items) && old(items)[|old(items)| - 1].content == result
      ensures !EndsWithAssistant(old(Snapshot())) ==>
        items[..|old(items)|] == old(items) && fresh(items[|items| - 1])
    {
      ghost var before := Snapshot();
      var newMessages := items;
      if |newMessages| > 0 && newMessages[|newMessages| - 1].role == Assistant {
        var lastMessage := newMessages[|newMessages| - 1];
        lastMessage.content := result;
        assert forall i :: 0 <= i < |items| - 1 ==> items[i] != lastMessage;
      } else {
        var m := new MessageObject(newId, Assistant, result);
        newMessages := newMessages + [m];
      }
      items := newMessages;
      assert forall i :: 0 <= i < |before| - 1 ==> Snapshot()[i] == Upsert(before, result, newId)[i];
    }

    /**
     * The `for (const line of lines)` loop of one chunk: every `data: ` line whose payload parses
     * to a non-empty content extends `result` and upserts the list; every other line is skipped.
     */
    method ReadLines(lines: seq<string>, result0: string, parse: string -> Option<string>, newId: string)
      returns (result: string)
      requires Valid()
      modifies this, items
      ensures Valid()
      ensures forall i :: 0 <= i < |items| ==> items[i] in old(items) || fresh(items[i])
      ensures |old(items)| <= |items| && items[..|old(items)|] == old(items)
      ensures Feed(result, Snapshot()) == FeedLines(Feed(result0, old(Snapshot())), lines, parse, newId)
    {
      ghost var before := Feed(result0, Snapshot());
      result := result0;
      for j := 0 to |lines|
        invariant Valid()
        invariant forall i :: 0 <= i < |items| ==> items[i] in old(items) || fresh(items[i])
        invariant |old(items)| <= |items| && items[..|old(items)|] == old(items)
        invariant Feed(result, Snapshot()) == FeedLines(before, lines[..j], parse, newId)
      {
        assert lines[..j + 1][..j] == lines[..j];
        result := ReadLine(lines[j], result, parse, newId);
      }
      assert lines[..|lines|] == lines;
    }

    /** One iteration of the line loop; a payload that fails to parse is caught and skipped. */
    method ReadLine(line: string, result0: string, parse: string -> Option<string>, newId: string)
      returns (result: string)
      requires Valid()
      modifies this, items
      ensures Valid()
      ensures forall i :: 0 <= i < |items| ==> items[i] in old(items) || fresh(items[i])
      ensures |old(items)| <= |items| && items[..|old(items)|] == old(items)
      ensures Feed(result, Snapshot()) == FeedLine(Feed(result0, old(Snapshot())), line, parse, newId)
    {
      result := result0;
      if IsDataLine(line) {
        var data := parse(Payload(line));
        if data.Some? && data.value != "" {
          result := result + data.value;
          SetMessagesUpsert(result, newId);
        }
      }
    }

    /**
     * `onResponse`: reject a failed response or one without a body reader; otherwise read the
     * chunks until `done`, cut each decoded chunk into lines and fold every accepted payload
     * into `result` and the message list.
     */
    method OnResponse(response: Response, decode: seq<bv8> -> string, parse: string -> Option<string>, newId: string)
      returns (outcome: Outcome)
      requires Valid()
      modifies this, items
      ensures Valid()
      ensures !response.ok ==> outcome == FailedToSend && items == old(items) && Snapshot() == old(Snapshot())
      ensures response.ok && response.body.None? ==> outcome == NoReader && items == old(items) && Snapshot() == old(Snapshot())
      ensures |old(items)| <= |items| && items[..|old(items)|] == old(items)
      ensures response.ok && response.body.Some? ==>
        var f := FeedChunks(Feed("", old(Snapshot())), Decoded(response.body.value, decode), parse, newId);
        outcome == Streamed(f.result) && Snapshot() == f.messages
    {
      if !response.ok {
        return FailedToSend;
      }
      if response.body.None? {
        return NoReader;
      }
      var reader := response.body.value;
      ghost var start := Feed("", Snapshot());
      ghost var texts := Decoded(reader, decode);
      var result := "";
      var n := 0;
      while true
        invariant 0 <= n <= |reader|
        invariant Valid()
        invariant forall i :: 0 <= i < |items| ==> items[i] in old(items) || fresh(items[i])
        invariant |old(items)| <= |items| && items[..|old(items)|] == old(items)
        invariant Feed(result, Snapshot()) == FeedChunks(start, texts[..n], parse, newId)
        decreases |reader| - n
      {
        if n == |reader| {
          break;
        }
        var chunk := decode(reader[n]);
        n := n + 1;
        assert texts[..n][..n - 1] == texts[..n - 1];
        result := ReadLines(SplitLines(chunk), result, parse, newId);
      }
      assert texts[..|reader|] == texts;
      return Streamed(result);
    }
  }
}

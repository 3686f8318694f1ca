/**
 * The per-chunk reading of a streamed chat reply
 * (voice-chatbot/components/voice-chatbot-realistic.tsx:242-266): each
 * decoded chunk is split on "\n", blank lines are dropped, only lines that
 * start with "data: " are read, the "[DONE]" sentinel is skipped, and every
 * non-empty `choices[0].delta.content` is appended in order. This is a
 * simplified subset of section 9.2.6 of the HTML Living Standard
 * ("Interpreting an event stream"): no field other than `data`, no event
 * spanning two chunks.
 *
 * `JSON.parse` and the property path are not modelled: the reading of a
 * payload is the parameter `deltaOf`.
 */
module ServerSentEvents {
  import opened Common

  /** What `JSON.parse(data)` and `parsed.choices[0]?.delta?.content` give: a throw, or the content if any. */
  datatype Delta = Unparsable | Parsed(content: Option<string>)

  const DataPrefix: string := "data: "
  const DoneSentinel: string := "[DONE]"

  /** `s.split("\n")`: at least one piece, none holding a newline. */
  function Split(s: string): (r: seq<string>)
    ensures |r| >= 1
    ensures forall i :: 0 <= i < |r| ==> '\n' !in r[i]
  {
    if s == [] then [""]
    else
      var rest := Split(s[1..]);
      if s[0] == '\n' then [""] + rest else [[s[0]] + rest[0]] + rest[1..]
  }

  /** `parts.join("\n")`. */
  function Join(parts: seq<string>): string
  {
    if parts == [] then ""
    else if |parts| == 1 then parts[0]
    else parts[0] + "\n" + Join(parts[1..])
  }

  /** Splitting loses nothing: joining the pieces back gives the chunk. */
  lemma {:induction false} JoinSplit(s: string)
    ensures Join(Split(s)) == s
  {
    if s != [] {
      var rest := Split(s[1..]);
      JoinSplit(s[1..]);
      if s[0] == '\n' {
        assert Split(s) == [""] + rest;
        assert Join(Split(s)) == "" + "\n" + Join(rest);
      } else {
        var r := Split(s);
        assert r[0] == [s[0]] + rest[0] && r[1..] == rest[1..];
        if |rest| == 1 {
          assert Join(r) == [s[0]] + rest[0];
        } else {
          assert Join(rest) == rest[0] + "\n" + Join(rest[1..]);
          assert Join(r) == ([s[0]] + rest[0]) + "\n" + Join(rest[1..]);
        }
      }
    }
  }

  /** A newline splits its two sides apart. */
  lemma {:induction false} SplitAtNewline(x: string, y: string)
    ensures Split(x + "\n" + y) == Split(x) + Split(y)
  {
    if x == [] {
      assert x + "\n" + y == ['\n'] + y;
      assert (['\n'] + y)[1..] == y;
    } else {
      var s := x + "\n" + y;
      assert s[0] == x[0] && s[1..] == x[1..] + "\n" + y;
      SplitAtNewline(x[1..], y);
    }
  }

  /** A piece without a newline is not split. */
  lemma {:induction false} SplitNoNewline(x: string)
    requires '\n' !in x
    ensures Split(x) == [x]
  {
    if x != [] {
      assert x[0] in x;
      assert forall c :: c in x[1..] ==> c in x;
      SplitNoNewline(x[1..]);
      assert [x[0]] + x[1..] == x;
    }
  }

  /** The text one `data:` payload contributes: nothing for "[DONE]", a throw, or falsy content. */
  function PayloadContent(data: string, deltaOf: string -> Delta): string
  {
    if data == DoneSentinel then ""
    else match deltaOf(data)
      case Unparsable => ""
      case Parsed(content) => if Truthy(content) then content.value else ""
  }

  /**
   * The text one line contributes: only a line starting with "data: " is
   * read, and the "[DONE]" payload adds nothing.
   */
  function LineContent(line: string, deltaOf: string -> Delta): (r: string)
    ensures !(|line| >= |DataPrefix| && line[..|DataPrefix|] == DataPrefix) ==> r == ""
    ensures r != "" ==> |line| >= |DataPrefix| && line[..|DataPrefix|] == DataPrefix && line[|DataPrefix|..] != DoneSentinel
    ensures r != "" ==> deltaOf(line[|DataPrefix|..]) == Parsed(Some(r))
  {
    if |line| >= |DataPrefix| && line[..|DataPrefix|] == DataPrefix
    then PayloadContent(line[|DataPrefix|..], deltaOf)
    else ""
  }

  /** The text of a run of lines after dropping the blank ones, in order. */
  function LinesContent(lines: seq<string>, deltaOf: string -> Delta): string
  {
    if lines == [] then ""
    else (if Blank(lines[0]) then "" else LineContent(lines[0], deltaOf)) + LinesContent(lines[1..], deltaOf)
  }

  /** The text one decoded chunk contributes. */
  function ChunkContent(chunk: string, deltaOf: string -> Delta): string
  {
    LinesContent(Split(chunk), deltaOf)
  }

  /** What each decoded chunk of a stream contributes, in arrival order. */
  function ChunkContents(chunks: seq<string>, deltaOf: string -> Delta): (r: seq<string>)
    ensures |r| == |chunks|
  {
    if chunks == [] then [] else ChunkContents(chunks[..|chunks| - 1], deltaOf) + [ChunkContent(chunks[|chunks| - 1], deltaOf)]
  }

  /** The text of a whole stream of decoded chunks. */
  function StreamContent(chunks: seq<string>, deltaOf: string -> Delta): string
  {
    Flatten(ChunkContents(chunks, deltaOf))
  }

  lemma {:induction false} LinesContentConcat(a: seq<string>, b: seq<string>, deltaOf: string -> Delta)
    ensures LinesContent(a + b, deltaOf) == LinesContent(a, deltaOf) + LinesContent(b, deltaOf)
  {
    if a != [] {
      assert (a + b)[0] == a[0] && (a + b)[1..] == a[1..] + b;
      LinesContentConcat(a[1..], b, deltaOf);
    } else {
      assert a + b == b;
    }
  }

  /** One more chunk adds its content at the end of the stream's. */
  lemma StreamContentSnoc(cs: seq<string>, c: string, deltaOf: string -> Delta)
    ensures StreamContent(cs + [c], deltaOf) == StreamContent(cs, deltaOf) + ChunkContent(c, deltaOf)
  {
    var contents := ChunkContents(cs, deltaOf);
    assert (cs + [c])[..|cs|] == cs;
    assert ChunkContents(cs + [c], deltaOf) == contents + [ChunkContent(c, deltaOf)];
    assert (contents + [ChunkContent(c, deltaOf)])[..|contents|] == contents;
  }

  lemma {:induction false} ChunkContentsConcat(a: seq<string>, b: seq<string>, deltaOf: string -> Delta)
    ensures ChunkContents(a + b, deltaOf) == ChunkContents(a, deltaOf) + ChunkContents(b, deltaOf)
    decreases |b|
  {
    if b == [] {
      assert a + b == a;
    } else {
      var b' := b[..|b| - 1];
      assert (a + b)[..|a + b| - 1] == a + b';
      assert (a + b)[|a + b| - 1] == b[|b| - 1];
      ChunkContentsConcat(a, b', deltaOf);
    }
  }

  /** Content is never reordered or merged across chunks: the stream's text is the chunks' texts in arrival order. */
  lemma {:induction false} StreamContentConcat(a: seq<string>, b: seq<string>, deltaOf: string -> Delta)
    ensures StreamContent(a + b, deltaOf) == StreamContent(a, deltaOf) + StreamContent(b, deltaOf)
  {
    ChunkContentsConcat(a, b, deltaOf);
    FlattenConcat(ChunkContents(a, deltaOf), ChunkContents(b, deltaOf));
  }

  /** One server-sent event carrying `payload`, as the chat endpoint frames it. */
  function Frame(payload: string): string
  {
    DataPrefix + payload + "\n\n"
  }

  /** A whole frame splits into its `data:` line and the empty line that ends it. */
  lemma FrameLines(payload: string, rest: string)
    requires '\n' !in payload
    ensures Split(Frame(payload) + rest) == [DataPrefix + payload, ""] + Split(rest)
  {
    var line := DataPrefix + payload;
    assert '\n' !in line by {
      assert forall i :: 0 <= i < |line| ==> line[i] == (if i < 6 then DataPrefix[i] else payload[i - 6]);
    }
    assert Frame(payload) + rest == line + "\n" + ("" + "\n" + rest);
    SplitAtNewline(line, "" + "\n" + rest);
    SplitAtNewline("", rest);
    SplitNoNewline(line);
  }

  /** The lines of a whole frame contribute exactly its payload's text. */
  lemma FrameLinesContent(payload: string, deltaOf: string -> Delta)
    ensures LinesContent([DataPrefix + payload, ""], deltaOf) == PayloadContent(payload, deltaOf)
  {
    var line := DataPrefix + payload;
    assert [line, ""][1..] == [""] && [""][1..] == [];
    assert !Blank(line) by { assert line[0] == 'd'; }
    assert line[..|DataPrefix|] == DataPrefix && line[|DataPrefix|..] == payload;
    assert LineContent(line, deltaOf) == PayloadContent(payload, deltaOf);
  }

  /** A chunk that begins with a whole frame yields that frame's content, then the rest of the chunk's. */
  lemma FrameThenRest(payload: string, rest: string, deltaOf: string -> Delta)
    requires '\n' !in payload
    ensures ChunkContent(Frame(payload) + rest, deltaOf) == PayloadContent(payload, deltaOf) + ChunkContent(rest, deltaOf)
  {
    var lines := [DataPrefix + payload, ""];
    FrameLines(payload, rest);
    LinesContentConcat(lines, Split(rest), deltaOf);
    FrameLinesContent(payload, deltaOf);
  }

  /** The final "data: [DONE]" frame adds nothing to the reply. */
  lemma DoneFrameAddsNothing(deltaOf: string -> Delta)
    ensures ChunkContent(Frame(DoneSentinel), deltaOf) == ""
  {
    FrameThenRest(DoneSentinel, "", deltaOf);
    assert Frame(DoneSentinel) + "" == Frame(DoneSentinel);
    assert Split("") == [""];
  }

  /** A payload whose delta carries a non-empty `text` contributes that text. */
  lemma PayloadText(payload: string, text: string, deltaOf: string -> Delta)
    requires payload != DoneSentinel
    requires deltaOf(payload) == Parsed(Some(text)) && text != ""
    ensures PayloadContent(payload, deltaOf) == text
  {
  }

  /** A chunk holding one whole frame whose delta carries a non-empty `text` yields that text. */
  lemma SingleFrame(payload: string, text: string, deltaOf: string -> Delta)
    requires '\n' !in payload && payload != DoneSentinel
    requires deltaOf(payload) == Parsed(Some(text)) && text != ""
    ensures ChunkContent(Frame(payload), deltaOf) == text
  {
    FrameThenRest(payload, "", deltaOf);
    PayloadText(payload, text, deltaOf);
    assert Frame(payload) + "" == Frame(payload);
    assert Split("") == [""];
  }

  /** The same frame followed by the "[DONE]" frame in one chunk yields the same text. */
  lemma FrameThenDone(payload: string, text: string, deltaOf: string -> Delta)
    requires '\n' !in payload && payload != DoneSentinel
    requires deltaOf(payload) == Parsed(Some(text)) && text != ""
    ensures ChunkContent(Frame(payload) + Frame(DoneSentinel), deltaOf) == text
  {
    FrameThenRest(payload, Frame(DoneSentinel), deltaOf);
    PayloadText(payload, text, deltaOf);
    DoneFrameAddsNothing(deltaOf);
    assert text + "" == text;
  }

  /** A stream of three chunks yields their contents one after the other. */
  lemma StreamOfThree(f1: string, f2: string, f3: string, deltaOf: string -> Delta)
    ensures StreamContent([f1, f2, f3], deltaOf)
            == ChunkContent(f1, deltaOf) + ChunkContent(f2, deltaOf) + ChunkContent(f3, deltaOf)
  {
    var c1, c2, c3 := ChunkContent(f1, deltaOf), ChunkContent(f2, deltaOf), ChunkContent(f3, deltaOf);
    assert ChunkContents([], deltaOf) == [];
    StreamContentSnoc([], f1, deltaOf);
    assert [] + [f1] == [f1];
    assert StreamContent([f1], deltaOf) == c1;
    StreamContentSnoc([f1], f2, deltaOf);
    assert [f1] + [f2] == [f1, f2];
    assert StreamContent([f1, f2], deltaOf) == c1 + c2;
    StreamContentSnoc([f1, f2], f3, deltaOf);
    assert [f1, f2] + [f3] == [f1, f2, f3];
  }

  /**
   * A stream of three frames whose payloads carry "Hel", "lo" and " there",
   * then "[DONE]", yields "Hello there".
   */
  lemma ThreeFramesThenDone(p1: string, p2: string, p3: string, deltaOf: string -> Delta)
    requires '\n' !in p1 && '\n' !in p2 && '\n' !in p3
    requires deltaOf(p1) == Parsed(Some("Hel")) && deltaOf(p2) == Parsed(Some("lo"))
    requires deltaOf(p3) == Parsed(Some(" there"))
    requires p1 != DoneSentinel && p2 != DoneSentinel && p3 != DoneSentinel
    ensures StreamContent([Frame(p1), Frame(p2), Frame(p3) + Frame(DoneSentinel)], deltaOf) == "Hello there"
  {
    SingleFrame(p1, "Hel", deltaOf);
    SingleFrame(p2, "lo", deltaOf);
    FrameThenDone(p3, " there", deltaOf);
    StreamOfThree(Frame(p1), Frame(p2), Frame(p3) + Frame(DoneSentinel), deltaOf);
    assert "Hel" + "lo" + " there" == "Hello there";
  }

  /** The body of `for (const line of lines)`: what one non-blank line adds to the reply. */
  method ReadLine(line: string, deltaOf: string -> Delta) returns (text: string)
    requires !Blank(line)
    ensures text == LineContent(line, deltaOf)
  {
    text := "";
    if |line| >= |DataPrefix| && line[..|DataPrefix|] == DataPrefix {
      var data := line[|DataPrefix|..];
      if data != DoneSentinel {
        match deltaOf(data)
        case Parsed(content) =>
          if Truthy(content) {
            text := content.value;
          }
        case Unparsable =>
      }
    }
  }

  /**
   * The `for (const line of lines)` loop over one decoded chunk: every
   * non-blank line is read in order and its content appended.
   */
  method ReadChunk(chunk: string, deltaOf: string -> Delta) returns (added: string)
    ensures added == ChunkContent(chunk, deltaOf)
  {
    var lines := Split(chunk);
    added := "";
    for j := 0 to |lines|
      invariant added == LinesContent(lines[..j], deltaOf)
    {
      var text := "";
      if !Blank(lines[j]) {
        text := ReadLine(lines[j], deltaOf);
      }
      LinesContentConcat(lines[..j], [lines[j]], deltaOf);
      assert lines[..j + 1] == lines[..j] + [lines[j]];
      added := added + text;
    }
    assert lines[..|lines|] == lines;
  }

  /**
   * The `while (true)` reader loop: every decoded chunk is read in arrival
   * order and its content appended to the reply.
   */
  method ReadStream(chunks: seq<string>, deltaOf: string -> Delta) returns (reply: string)
    ensures reply == StreamContent(chunks, deltaOf)
  {
    reply := "";
    assert ChunkContents([], deltaOf) == [];
    var i := 0;
    while i < |chunks|
      invariant 0 <= i <= |chunks|
      invariant reply == StreamContent(chunks[..i], deltaOf)
    {
      var added := ReadChunk(chunks[i], deltaOf);
      assert chunks[..i + 1] == chunks[..i] + [chunks[i]];
      StreamContentSnoc(chunks[..i], chunks[i], deltaOf);
      reply := reply + added;
      i := i + 1;
    }
    assert chunks[..|chunks|] == chunks;
  }
}

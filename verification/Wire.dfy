/** The wire format between `_sse_frame` (api/main.py) and `parse_sse_lines` (cli/main.py):
    the subset of server-sent events (sections 9.2.4 to 9.2.6 of the WHATWG HTML Living
    Standard) that this server prints. The JSON encoding of an event is a parameter. */
module Wire {
  import opened Models
  import opened Decimals
  import opened Stream

  // ---------- the server's text ----------

  function KindName(k: EventKind): string {
    match k
    case JobStarted => "job.started"
    case LlmMessage => "llm.message"
    case ToolCall => "tool.call"
    case ToolResult => "tool.result"
    case JobCompleted => "job.completed"
    case JobFailed => "job.failed"
  }

  /** `json.dumps` and `json.loads` on event objects. */
  datatype Codec = Codec(dumps: Event -> string, loads: string -> Option<Event>)

  predicate OneLine(s: string) {
    forall i :: 0 <= i < |s| ==> s[i] != '\n'
  }

  ghost predicate Faithful(c: Codec) {
    forall e :: c.loads(c.dumps(e)) == Some(e) && OneLine(c.dumps(e))
  }

  function FrameLines(c: Codec, e: Event): seq<string> {
    ["id: " + Dec(e.id), "event: " + KindName(e.kind), "data: " + c.dumps(e), ""]
  }

  function ChunkLines(c: Codec, chunk: Chunk): seq<string> {
    match chunk
    case Frame(e) => FrameLines(c, e)
    case KeepAlive => [": keepalive", ""]
  }

  function Text(lines: seq<string>): string {
    if lines == [] then "" else lines[0] + "\n" + Text(lines[1..])
  }

  function AllLines(c: Codec, chunks: seq<Chunk>): seq<string> {
    if chunks == [] then [] else ChunkLines(c, chunks[0]) + AllLines(c, chunks[1..])
  }

  // ---------- the client's lines ----------

  /** The complete lines of a text; what follows the last line break has not arrived. */
  function Lines(text: string): seq<string> {
    LinesFrom("", text)
  }

  function LinesFrom(line: string, text: string): seq<string>
    decreases |text|
  {
    if text == "" then []
    else if text[0] == '\n' then [line] + LinesFrom("", text[1..])
    else LinesFrom(line + [text[0]], text[1..])
  }

  lemma {:induction false} OneMoreLine(prefix: string, line: string, rest: string)
    requires OneLine(line)
    ensures LinesFrom(prefix, line + "\n" + rest) == [prefix + line] + LinesFrom("", rest)
    decreases |line|
  {
    var text := line + "\n" + rest;
    if line == "" {
      assert text[0] == '\n' && text[1..] == rest;
      assert prefix + line == prefix;
    } else {
      assert text[0] == line[0] && text[1..] == line[1..] + "\n" + rest;
      OneMoreLine(prefix + [line[0]], line[1..], rest);
      assert prefix + [line[0]] + line[1..] == prefix + line;
    }
  }

  lemma {:induction false} LinesOfText(lines: seq<string>)
    requires forall i :: 0 <= i < |lines| ==> OneLine(lines[i])
    ensures Lines(Text(lines)) == lines
    decreases |lines|
  {
    if lines != [] {
      OneMoreLine("", lines[0], Text(lines[1..]));
      LinesOfText(lines[1..]);
      assert "" + lines[0] == lines[0];
    }
  }

  /** Cutting a text anywhere cuts its lines after some line. */
  lemma {:induction false} CutText(line: string, text: string, n: nat)
    requires n <= |text|
    ensures LinesFrom(line, text[..n]) <= LinesFrom(line, text)
    decreases |text|
  {
    if n > 0 {
      assert text[..n][0] == text[0] && text[..n][1..] == text[1..][..n - 1];
      if text[0] == '\n' {
        CutText("", text[1..], n - 1);
      } else {
        CutText(line + [text[0]], text[1..], n - 1);
      }
    }
  }

  // ---------- parse_sse_lines ----------

  /** The dictionary under construction, and the ones that are yielded. */
  datatype Item = Item(id: Option<int>, kind: Option<string>, data: Option<Event>)

  const BLANK := Item(None, None, None)

  /** `broken`: `int` or `json.loads` raised. */
  datatype Parsed = Parsed(items: seq<Item>, broken: bool)

  predicate StartsWith(line: string, prefix: string) {
    |prefix| <= |line| && line[..|prefix|] == prefix
  }

  /** What one line does to `cur`; `None` if it raises. */
  function ReadLine(c: Codec, cur: Item, line: string): Option<Item> {
    if StartsWith(line, "id: ") then
      match ParseInt(line[4..])
      case None => None
      case Some(n) => Some(cur.(id := Some(n)))
    else if StartsWith(line, "event: ") then Some(cur.(kind := Some(line[7..])))
    else if StartsWith(line, "data: ") then
      match c.loads(line[6..])
      case None => None
      case Some(e) => Some(cur.(data := Some(e)))
    else Some(cur)
  }

  function Parse(c: Codec, cur: Item, lines: seq<string>): Parsed
    decreases |lines|
  {
    if lines == [] then Parsed([], false)
    else if lines[0] == "" then
      if cur == BLANK then Parse(c, cur, lines[1..])
      else var r := Parse(c, BLANK, lines[1..]); Parsed([cur] + r.items, r.broken)
    else
      match ReadLine(c, cur, lines[0])
      case None => Parsed([], true)
      case Some(cur') => Parse(c, cur', lines[1..])
  }

  method ParseSseLines(c: Codec, lines: seq<string>) returns (items: seq<Item>, broken: bool)
    ensures Parsed(items, broken) == Parse(c, BLANK, lines)
  {
    items := [];
    var cur := BLANK;
    var k := 0;
    while k < |lines|
      invariant k <= |lines|
      invariant Parse(c, BLANK, lines) ==
                var r := Parse(c, cur, lines[k..]); Parsed(items + r.items, r.broken)
    {
      var line := lines[k];
      assert lines[k..][0] == line && lines[k..][1..] == lines[k + 1..];
      k := k + 1;
      if line == "" {
        if cur != BLANK {
          Associative(items, [cur], Parse(c, BLANK, lines[k..]).items);
          items := items + [cur];
          cur := BLANK;
        }
      } else {
        var next := ReadLine(c, cur, line);
        if next.None? {
          return items, true;
        }
        cur := next.value;
      }
    }
    broken := false;
  }

  // ---------- the round trip ----------

  function ItemOf(e: Event): Item {
    Item(Some(e.id), Some(KindName(e.kind)), Some(e))
  }

  /** The events whose closing blank line is among the first `n` lines. */
  function Complete(chunks: seq<Chunk>, n: nat): seq<Item> {
    if chunks == [] then []
    else
      match chunks[0]
      case Frame(e) => if n < 4 then [] else [ItemOf(e)] + Complete(chunks[1..], n - 4)
      case KeepAlive => if n < 2 then [] else Complete(chunks[1..], n - 2)
  }

  lemma Differs(line: string, prefix: string)
    requires line != "" && prefix != "" && line[0] != prefix[0]
    ensures !StartsWith(line, prefix)
  {
    assert |prefix| <= |line| ==> line[..|prefix|][0] == line[0];
  }

  /** The three lines of a frame fill the dictionary one key after the other. */
  lemma ReadsFields(c: Codec, e: Event)
    requires Faithful(c)
    ensures var lines := FrameLines(c, e);
            var one := Item(Some(e.id), None, None); var two := one.(kind := Some(KindName(e.kind)));
            && ReadLine(c, BLANK, lines[0]) == Some(one)
            && ReadLine(c, one, lines[1]) == Some(two)
            && ReadLine(c, two, lines[2]) == Some(ItemOf(e))
  {
    var lines := FrameLines(c, e);
    ParseDec(e.id);
    assert lines[0][4..] == Dec(e.id) && lines[1][7..] == KindName(e.kind) && lines[2][6..] == c.dumps(e);
    Differs(lines[1], "id: ");
    Differs(lines[2], "id: ");
    Differs(lines[2], "event: ");
  }

  lemma ParseNext(c: Codec, cur: Item, line: string, rest: seq<string>)
    requires line != "" && ReadLine(c, cur, line).Some?
    ensures Parse(c, cur, [line] + rest) == Parse(c, ReadLine(c, cur, line).value, rest)
  {
    assert ([line] + rest)[1..] == rest;
  }

  /** A frame that is cut short yields nothing. */
  lemma CutFrame(c: Codec, e: Event, n: nat)
    requires Faithful(c) && n < 4
    ensures Parse(c, BLANK, FrameLines(c, e)[..n]) == Parsed([], false)
  {
    var lines := FrameLines(c, e);
    ReadsFields(c, e);
    var cur := if n == 0 then BLANK else if n == 1 then Item(Some(e.id), None, None)
               else if n == 2 then Item(Some(e.id), Some(KindName(e.kind)), None) else ItemOf(e);
    assert Parse(c, cur, []) == Parsed([], false);
    if n == 1 {
      assert lines[..1] == [lines[0]] + [];
      ParseNext(c, BLANK, lines[0], []);
    } else if n == 2 {
      assert lines[..2] == [lines[0]] + ([lines[1]] + []);
      ParseNext(c, BLANK, lines[0], [lines[1]] + []);
      ParseNext(c, Item(Some(e.id), None, None), lines[1], []);
    } else if n == 3 {
      assert lines[..3] == [lines[0]] + ([lines[1]] + ([lines[2]] + []));
      ParseNext(c, BLANK, lines[0], [lines[1]] + ([lines[2]] + []));
      ParseNext(c, Item(Some(e.id), None, None), lines[1], [lines[2]] + []);
      ParseNext(c, Item(Some(e.id), Some(KindName(e.kind)), None), lines[2], []);
    }
  }

  lemma WholeFrame(c: Codec, e: Event, rest: seq<string>)
    requires Faithful(c)
    ensures Parse(c, BLANK, FrameLines(c, e) + rest) ==
            var r := Parse(c, BLANK, rest); Parsed([ItemOf(e)] + r.items, r.broken)
  {
    var lines := FrameLines(c, e);
    ReadsFields(c, e);
    var tail := [""] + rest;
    assert lines + rest == [lines[0]] + ([lines[1]] + ([lines[2]] + tail));
    ParseNext(c, BLANK, lines[0], [lines[1]] + ([lines[2]] + tail));
    ParseNext(c, Item(Some(e.id), None, None), lines[1], [lines[2]] + tail);
    ParseNext(c, Item(Some(e.id), Some(KindName(e.kind)), None), lines[2], tail);
    assert tail[1..] == rest;
  }

  /** A comment line and its blank line change nothing, complete or cut. */
  lemma WholeKeepAlive(c: Codec, rest: seq<string>, n: nat)
    requires n < 2
    ensures Parse(c, BLANK, ChunkLines(c, KeepAlive) + rest) == Parse(c, BLANK, rest)
    ensures Parse(c, BLANK, ChunkLines(c, KeepAlive)[..n]) == Parsed([], false)
  {
    var comment := ": keepalive";
    Differs(comment, "id: ");
    Differs(comment, "event: ");
    Differs(comment, "data: ");
    assert ChunkLines(c, KeepAlive) + rest == [comment] + ([""] + rest);
    ParseNext(c, BLANK, comment, [""] + rest);
    assert ([""] + rest)[1..] == rest;
    if n == 1 {
      assert ChunkLines(c, KeepAlive)[..1] == [comment] + [];
      ParseNext(c, BLANK, comment, []);
    }
  }

  /** Whatever prefix of the lines arrives, the parser yields exactly the events whose
      closing blank line arrived, in order and unchanged, and never breaks. */
  lemma {:induction false} InterruptedRoundTrip(c: Codec, chunks: seq<Chunk>, n: nat)
    requires Faithful(c) && n <= |AllLines(c, chunks)|
    ensures Parse(c, BLANK, AllLines(c, chunks)[..n]) == Parsed(Complete(chunks, n), false)
    decreases |chunks|
  {
    if chunks != [] {
      var first, rest := ChunkLines(c, chunks[0]), AllLines(c, chunks[1..]);
      if n < |first| {
        assert (first + rest)[..n] == first[..n];
        match chunks[0]
        case Frame(e) => CutFrame(c, e, n);
        case KeepAlive => WholeKeepAlive(c, [], n);
      } else {
        assert (first + rest)[..n] == first + rest[..n - |first|];
        InterruptedRoundTrip(c, chunks[1..], n - |first|);
        match chunks[0]
        case Frame(e) => WholeFrame(c, e, rest[..n - 4]);
        case KeepAlive => WholeKeepAlive(c, rest[..n - 2], 0);
      }
    }
  }

  lemma OneLineJoin(a: string, b: string)
    requires OneLine(a) && OneLine(b)
    ensures OneLine(a + b)
  {
  }

  lemma KindNameIsSingle(k: EventKind)
    ensures OneLine(KindName(k))
  {
    match k
    case JobStarted =>
    case LlmMessage =>
    case ToolCall =>
    case ToolResult =>
    case JobCompleted =>
    case JobFailed =>
  }

  lemma ChunkIsSingle(c: Codec, chunk: Chunk)
    requires Faithful(c)
    ensures forall i :: 0 <= i < |ChunkLines(c, chunk)| ==> OneLine(ChunkLines(c, chunk)[i])
  {
    if chunk.Frame? {
      var e := chunk.e;
      KindNameIsSingle(e.kind);
      OneLineJoin("id: ", Dec(e.id));
      OneLineJoin("event: ", KindName(e.kind));
      OneLineJoin("data: ", c.dumps(e));
    }
  }

  lemma {:induction false} LinesAreSingle(c: Codec, chunks: seq<Chunk>)
    requires Faithful(c)
    ensures forall i :: 0 <= i < |AllLines(c, chunks)| ==> OneLine(AllLines(c, chunks)[i])
    decreases |chunks|
  {
    if chunks != [] {
      ChunkIsSingle(c, chunks[0]);
      LinesAreSingle(c, chunks[1..]);
    }
  }

  /** The same for the text: the connection may be cut after any character. */
  lemma CutAnywhere(c: Codec, chunks: seq<Chunk>, n: nat) returns (k: nat)
    requires Faithful(c) && n <= |Text(AllLines(c, chunks))|
    ensures k <= |AllLines(c, chunks)|
    ensures Lines(Text(AllLines(c, chunks))[..n]) == AllLines(c, chunks)[..k]
    ensures Parse(c, BLANK, Lines(Text(AllLines(c, chunks))[..n])) == Parsed(Complete(chunks, k), false)
    ensures n == |Text(AllLines(c, chunks))| ==> k == |AllLines(c, chunks)|
  {
    var lines, text := AllLines(c, chunks), Text(AllLines(c, chunks));
    LinesAreSingle(c, chunks);
    LinesOfText(lines);
    CutText("", text, n);
    k := |Lines(text[..n])|;
    assert text[..|text|] == text;
    InterruptedRoundTrip(c, chunks, k);
  }

  /** What is complete is a prefix of what was sent; all of it, if nothing was cut. */
  lemma {:induction false} CompleteIsPrefix(c: Codec, chunks: seq<Chunk>, n: nat) returns (k: nat)
    requires n <= |AllLines(c, chunks)|
    ensures k <= |Frames(chunks)| && |Complete(chunks, n)| == k
    ensures forall i :: 0 <= i < k ==> Complete(chunks, n)[i] == ItemOf(Frames(chunks)[i])
    ensures n == |AllLines(c, chunks)| ==> k == |Frames(chunks)|
    decreases |chunks|
  {
    if chunks == [] {
      k := 0;
    } else {
      FramesCons(chunks);
      var first := ChunkLines(c, chunks[0]);
      if n < |first| {
        k := 0;
      } else {
        k := CompleteIsPrefix(c, chunks[1..], n - |first|);
        if chunks[0].Frame? { k := k + 1; }
      }
    }
  }

  lemma {:induction false} FramesCons(chunks: seq<Chunk>)
    requires chunks != []
    ensures Frames(chunks) ==
            if chunks[0].Frame? then [chunks[0].e] + Frames(chunks[1..]) else Frames(chunks[1..])
    decreases |chunks|
  {
    var init, last := chunks[..|chunks| - 1], chunks[|chunks| - 1];
    if init != [] {
      FramesCons(init);
      assert chunks[1..] == init[1..] + [last];
      FramesSnoc(init[1..], last);
    }
  }
}

/** cli/main.py, `render`: how the client shows an event. It knows the type by its text
    only, as it came over the wire. */
module Rendering {
  import opened Models
  import opened Stream
  import opened Wire

  /** What a line of output begins with. */
  function Mark(name: string): string {
    if name == "job.started" then "* attempt "
    else if name == "tool.call" then "-> "
    else if name == "tool.result" then "<- "
    else if name == "llm.message" then "agent: "
    else if name == "job.completed" then "== succeeded: "
    else if name == "job.failed" then "== "
    else "? " + name
  }

  /** The line shows an event of this kind, and not of another. */
  predicate Shows(mark: string, k: EventKind) {
    && (k.JobStarted? <==> mark == "* attempt ")
    && (k.ToolCall? <==> mark == "-> ")
    && (k.ToolResult? <==> mark == "<- ")
    && (k.LlmMessage? <==> mark == "agent: ")
    && (k.JobCompleted? <==> mark == "== succeeded: ")
    && (k.JobFailed? <==> mark == "== ")
  }

  lemma NameIsShown(k: EventKind)
    ensures Shows(Mark(KindName(k)), k)
  {
    match k
    case JobStarted =>
    case LlmMessage =>
    case ToolCall =>
    case ToolResult =>
    case JobCompleted =>
    case JobFailed =>
  }

  /** However a response is cut: every event that arrives is shown as what it was when it
      was logged, none as unknown. */
  lemma ShownAsSent(c: Codec, chunks: seq<Chunk>, n: nat, i: nat)
    requires Faithful(c) && n <= |Text(AllLines(c, chunks))|
    requires i < |Parse(c, BLANK, Lines(Text(AllLines(c, chunks))[..n])).items|
    ensures i < |Frames(chunks)|
    ensures var item := Parse(c, BLANK, Lines(Text(AllLines(c, chunks))[..n])).items[i];
            item.kind.Some? && Shows(Mark(item.kind.value), Frames(chunks)[i].kind)
  {
    var k := CutAnywhere(c, chunks, n);
    var m := CompleteIsPrefix(c, chunks, k);
    NameIsShown(Frames(chunks)[i].kind);
  }
}

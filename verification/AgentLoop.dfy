/** agent/loop.py: `run_agent`, with the providers it talks to: a model behind an API (an
    arbitrary sequence of replies), agent/mock.py and worker/record.py.

    The sandbox is a deterministic state machine over `S` whose tools may also reject
    their arguments or find the container dead; `strip` stands for `strip_reasoning`. */
module AgentLoop {
  import opened Models
  import opened Decimals

  // ---------- what the loop talks about ----------

  /** A JSON object of arguments; each value is kept as its JSON text. */
  type Args = map<string, string>

  datatype ToolRequest = ToolRequest(id: string, name: string, args: Option<Args>, parseError: Option<string>)

  datatype ChatResult = ChatResult(text: Option<string>, calls: seq<ToolRequest>, usage: Usage)

  datatype Exn = TrajectoryMismatch | SystemExit

  datatype Reply = Chat(result: ChatResult) | LlmError(message: string) | Raise(exn: Exn)

  datatype ToolPayload = ToolPayload(ok: bool, exitCode: Option<int>, truncated: bool, output: string)

  datatype ToolStep<S> = Ran(box: S, payload: ToolPayload) | BadArguments(box: S, message: string) | Died

  datatype World<!S> = World(strip: string -> string, tool: (S, string, Args) -> ToolStep<S>)

  datatype CallRef = CallRef(id: string, name: string, args: Args)

  datatype Message =
    | SystemMsg
    | UserMsg(text: string)
    | AssistantMsg(text: string)
    | AssistantCalls(text: string, calls: seq<CallRef>)
    | ToolMsg(callId: string, payload: ToolPayload)

  datatype AgentEvent =
    | MessageEv(text: string, final: bool)
    | CallEv(id: string, name: string, args: Args)
    | ResultEv(id: string, name: string, payload: ToolPayload)

  datatype Exit =
    | Returned(status: Status, reason: Option<Reason>, summary: string, usage: Usage)
    | Stopped(why: Reason)
    | SandboxDied
    | Raised(exn: Exn)

  /** The loop's variables. `asked` lists the messages that each chat was called with. */
  datatype Loop<S> = Loop(messages: seq<Message>, events: seq<AgentEvent>, box: S,
                          promptTokens: int, completionTokens: int, checks: nat, asked: seq<seq<Message>>)

  const TOOL_NAMES := {"bash", "read_file", "write_file", "list_dir"}

  const NUDGE := "Your last reply contained no visible answer and no tool call."

  predicate Truthy(s: Option<string>) {
    s.Some? && s.value != ""
  }

  function ArgsOf(c: ToolRequest): Args {
    if c.args.Some? then c.args.value else map[]
  }

  function Refs(calls: seq<ToolRequest>): seq<CallRef> {
    seq(|calls|, i requires 0 <= i < |calls| => CallRef(calls[i].id, calls[i].name, ArgsOf(calls[i])))
  }

  function UsageTotal<S>(st: Loop<S>): Usage {
    map["prompt_tokens" := st.promptTokens, "completion_tokens" := st.completionTokens]
  }

  function Failure(output: string): ToolPayload {
    ToolPayload(false, None, false, output)
  }

  // ---------- the loop as functions ----------

  function Begin<S>(prompt: string, box: S): Loop<S> {
    Loop([SystemMsg, UserMsg(prompt)], [], box, 0, 0, 0, [])
  }

  /** One tool call, after `tool.call` has been emitted; `None` if the sandbox died. */
  function Invoke<S>(w: World<S>, c: ToolRequest, box: S): Option<(S, ToolPayload)> {
    if Truthy(c.parseError) then Some((box, Failure("invalid tool arguments: " + c.parseError.value)))
    else if c.name !in TOOL_NAMES then Some((box, Failure("unknown tool: " + c.name)))
    else
      match w.tool(box, c.name, ArgsOf(c))
      case Ran(box', payload) => Some((box', payload))
      case BadArguments(box', message) => Some((box', Failure("invalid arguments for " + c.name + ": " + message)))
      case Died => None
  }

  /** After a check that passed and the `tool.call` event. */
  function Opened<S>(st: Loop<S>, c: ToolRequest): Loop<S> {
    st.(checks := st.checks + 1, events := st.events + [CallEv(c.id, c.name, ArgsOf(c))])
  }

  /** After the `tool.result` event and the tool message. */
  function Closed<S>(st: Loop<S>, c: ToolRequest, box: S, payload: ToolPayload): Loop<S> {
    st.(box := box, events := st.events + [ResultEv(c.id, c.name, payload)],
        messages := st.messages + [ToolMsg(c.id, payload)])
  }

  function CallTools<S>(w: World<S>, stops: nat -> Option<Reason>, calls: seq<ToolRequest>, st: Loop<S>)
    : (Loop<S>, Option<Exit>)
    decreases |calls|
  {
    if calls == [] then (st, None)
    else if stops(st.checks).Some? then
      (st.(checks := st.checks + 1), Some(Stopped(stops(st.checks).value)))
    else
      match Invoke(w, calls[0], st.box)
      case None => (Opened(st, calls[0]), Some(SandboxDied))
      case Some((box, payload)) =>
        CallTools(w, stops, calls[1..], Closed(Opened(st, calls[0]), calls[0], box, payload))
  }

  function Charged<S>(st: Loop<S>, usage: Usage): Loop<S> {
    st.(promptTokens := st.promptTokens + Tokens(usage, "prompt_tokens"),
        completionTokens := st.completionTokens + Tokens(usage, "completion_tokens"))
  }

  /** The assistant message with its calls, and the text as an event unless it is empty. */
  function Announced<S>(st: Loop<S>, text: string, calls: seq<ToolRequest>): Loop<S> {
    st.(messages := st.messages + [AssistantCalls(text, Refs(calls))],
        events := if text == "" then st.events else st.events + [MessageEv(text, false)])
  }

  /** What follows a chat that returned. */
  function Respond<S>(w: World<S>, stops: nat -> Option<Reason>, r: ChatResult, st: Loop<S>): (Loop<S>, Option<Exit>) {
    var text := w.strip(if r.text.Some? then r.text.value else "");
    var st1 := Charged(st, r.usage);
    if r.calls != [] then CallTools(w, stops, r.calls, Announced(st1, text, r.calls))
    else if text == "" then
      (st1.(messages := st1.messages + [AssistantMsg(""), UserMsg(NUDGE)]), None)
    else
      (st1.(events := st1.events + [MessageEv(text, true)], messages := st1.messages + [AssistantMsg(text)]),
       Some(Returned(Succeeded, None, text, UsageTotal(st1))))
  }

  /** One step: check, chat, respond. */
  function Turn<S>(w: World<S>, stops: nat -> Option<Reason>, reply: Reply, st: Loop<S>): (Loop<S>, Option<Exit>) {
    var st1 := st.(checks := st.checks + 1);
    if stops(st.checks).Some? then (st1, Some(Stopped(stops(st.checks).value)))
    else
      var st2 := st1.(asked := st1.asked + [st1.messages]);
      match reply
      case LlmError(message) => (st2, Some(Returned(Failed, Some(ModelError), message, UsageTotal(st2))))
      case Raise(exn) => (st2, Some(Raised(exn)))
      case Chat(r) => Respond(w, stops, r, st2)
  }

  function GaveUpText(maxSteps: int): string {
    "gave up after " + IntText(maxSteps) + " steps"
  }

  /** Steps `k`, `k + 1`, ... of at most `maxSteps`; `llm(k)` is the reply at step `k`. */
  function Steps<S>(w: World<S>, stops: nat -> Option<Reason>, llm: nat -> Reply, maxSteps: int, k: nat, st: Loop<S>)
    : (Loop<S>, Exit)
    decreases maxSteps - k
  {
    if k >= maxSteps then (st, Returned(Failed, Some(MaxSteps), GaveUpText(maxSteps), UsageTotal(st)))
    else
      var (st', exit) := Turn(w, stops, llm(k), st);
      if exit.Some? then (st', exit.value) else Steps(w, stops, llm, maxSteps, k + 1, st')
  }

  function RunSpec<S>(w: World<S>, stops: nat -> Option<Reason>, llm: nat -> Reply, maxSteps: int, prompt: string,
                      box: S)
    : (Loop<S>, Exit)
  {
    Steps(w, stops, llm, maxSteps, 0, Begin(prompt, box))
  }

  // ---------- the providers ----------

  /** A step of a trajectory file. */
  datatype RecordedCall = RecordedCall(name: string, args: Option<Args>)
  datatype RecordedStep = RecordedStep(calls: seq<RecordedCall>, text: Option<string>, usage: Usage)

  /** The k-th reply of a model, for every k. */
  class Model {
    const replies: nat -> Reply
    var i: nat

    constructor (replies: nat -> Reply)
      ensures this.replies == replies && i == 0
    {
      this.replies := replies;
      i := 0;
    }

    method Chat(messages: seq<Message>) returns (r: Reply)
      modifies this
      ensures r == replies(old(i)) && i == old(i) + 1
    {
      r := replies(i);
      i := i + 1;
    }
  }

  predicate Malformed(r: Reply) {
    r.Chat? && exists j :: 0 <= j < |r.result.calls| && Truthy(r.result.calls[j].parseError)
  }

  /** What the recorder lets through. */
  function Clean(r: Reply): Reply {
    if Malformed(r) then Raise(SystemExit) else r
  }

  function RecordedCalls(calls: seq<ToolRequest>): seq<RecordedCall> {
    seq(|calls|, j requires 0 <= j < |calls| => RecordedCall(calls[j].name, calls[j].args))
  }

  function RecordStep(r: ChatResult): RecordedStep {
    RecordedStep(RecordedCalls(r.calls), r.text, r.usage)
  }

  class RecordingLlm {
    const inner: Model
    var steps: seq<RecordedStep>

    constructor (inner: Model)
      ensures this.inner == inner && steps == []
    {
      this.inner := inner;
      steps := [];
    }

    method Chat(messages: seq<Message>) returns (r: Reply)
      modifies this, inner
      ensures r == Clean(inner.replies(old(inner.i))) && inner.i == old(inner.i) + 1
      ensures steps == if r.Chat? then old(steps) + [RecordStep(r.result)] else old(steps)
    {
      r := inner.Chat(messages);
      if r.Chat? {
        for j := 0 to |r.result.calls|
          invariant forall m :: 0 <= m < j ==> !Truthy(r.result.calls[m].parseError)
        {
          if Truthy(r.result.calls[j].parseError) {
            return Raise(SystemExit);
          }
        }
        steps := steps + [RecordStep(r.result)];
      }
    }
  }

  /** `replay-<i>-<j>`, for the j-th call of the i-th chat (counted from 1). */
  function ReplayId(i: nat, j: nat): string {
    "replay-" + Dec(i) + "-" + Dec(j)
  }

  function ReplayCalls(calls: seq<RecordedCall>, i: nat): seq<ToolRequest> {
    seq(|calls|, j requires 0 <= j < |calls| => ToolRequest(ReplayId(i, j), calls[j].name, calls[j].args, None))
  }

  function ReplayReply(steps: seq<RecordedStep>, k: nat): Reply {
    if k < |steps| then
      Reply.Chat(ChatResult(steps[k].text, ReplayCalls(steps[k].calls, k + 1), steps[k].usage))
    else Raise(TrajectoryMismatch)
  }

  class MockProvider {
    const steps: seq<RecordedStep>
    var i: nat

    constructor (steps: seq<RecordedStep>)
      ensures this.steps == steps && i == 0
    {
      this.steps := steps;
      i := 0;
    }

    method Chat(messages: seq<Message>) returns (r: Reply)
      modifies this
      ensures r == ReplayReply(steps, old(i))
      ensures i == if old(i) < |steps| then old(i) + 1 else old(i)
    {
      if i >= |steps| {
        return Raise(TrajectoryMismatch);
      }
      var step := steps[i];
      i := i + 1;
      r := Reply.Chat(ChatResult(step.text, ReplayCalls(step.calls, i), step.usage));
    }
  }

  datatype Provider = Api(m: Model) | Recorder(r: RecordingLlm) | Replay(p: MockProvider)

  ghost function Objects(llm: Provider): set<object> {
    match llm
    case Api(m) => {m}
    case Recorder(r) => {r, r.inner}
    case Replay(p) => {p}
  }

  ghost function Cursor(llm: Provider): nat
    reads Objects(llm)
  {
    match llm
    case Api(m) => m.i
    case Recorder(r) => r.inner.i
    case Replay(p) => p.i
  }

  /** What a provider answers when its cursor stands at `i`. */
  function ReplyAt(llm: Provider, i: nat): Reply {
    match llm
    case Api(m) => m.replies(i)
    case Recorder(r) => Clean(r.inner.replies(i))
    case Replay(p) => ReplayReply(p.steps, i)
  }

  function Oracle(llm: Provider, from: nat): nat -> Reply {
    (k: nat) => ReplyAt(llm, from + k)
  }

  /** The recorder's steps after `n` chats. */
  function Recorded(llm: nat -> Reply, n: nat): seq<RecordedStep> {
    if n == 0 then []
    else if llm(n - 1).Chat? then Recorded(llm, n - 1) + [RecordStep(llm(n - 1).result)]
    else Recorded(llm, n - 1)
  }

  lemma RecordedNext(before: seq<RecordedStep>, llm: nat -> Reply, n: nat)
    ensures before + Recorded(llm, n + 1) ==
            if llm(n).Chat? then before + Recorded(llm, n) + [RecordStep(llm(n).result)] else before + Recorded(llm, n)
  {
  }

  method Ask(llm: Provider, messages: seq<Message>) returns (r: Reply)
    modifies Objects(llm)
    ensures r == ReplyAt(llm, old(Cursor(llm)))
    ensures !r.Raise? ==> Cursor(llm) == old(Cursor(llm)) + 1
    ensures llm.Recorder? ==>
              llm.r.steps == if r.Chat? then old(llm.r.steps) + [RecordStep(r.result)] else old(llm.r.steps)
  {
    match llm
    case Api(m) => r := m.Chat(messages);
    case Recorder(rec) => r := rec.Chat(messages);
    case Replay(p) => r := p.Chat(messages);
  }

  class Sandbox<S> {
    var box: S

    constructor (box: S)
      ensures this.box == box
    {
      this.box := box;
    }

    method RunTool(w: World<S>, name: string, args: Args) returns (r: ToolStep<S>)
      modifies this
      ensures r == w.tool(old(box), name, args)
      ensures box == if r.Died? then old(box) else r.box
    {
      r := w.tool(box, name, args);
      if !r.Died? {
        box := r.box;
      }
    }
  }

  /** The body of the `for call in result.tool_calls` loop; `emit` appends to the events. */
  method RunTools<S>(w: World<S>, stops: nat -> Option<Reason>, sandbox: Sandbox<S>, calls: seq<ToolRequest>,
                     st0: Loop<S>)
    returns (st: Loop<S>, exit: Option<Exit>)
    requires sandbox.box == st0.box
    modifies sandbox
    ensures (st, exit) == CallTools(w, stops, calls, st0) && sandbox.box == st.box
    ensures st.asked == st0.asked
  {
    st := st0;
    for j := 0 to |calls|
      invariant sandbox.box == st.box && st.asked == st0.asked
      invariant CallTools(w, stops, calls, st0) == CallTools(w, stops, calls[j..], st)
    {
      var call := calls[j];
      assert calls[j..][0] == call && calls[j..][1..] == calls[j + 1..];
      var reason := stops(st.checks);
      st := st.(checks := st.checks + 1);
      if reason.Some? {
        return st, Some(Stopped(reason.value));
      }
      st := st.(events := st.events + [CallEv(call.id, call.name, ArgsOf(call))]);
      var payload;
      if Truthy(call.parseError) {
        payload := Failure("invalid tool arguments: " + call.parseError.value);
      } else if call.name !in TOOL_NAMES {
        payload := Failure("unknown tool: " + call.name);
      } else {
        var r := sandbox.RunTool(w, call.name, ArgsOf(call));
        match r {
          case Died => return st, Some(SandboxDied);
          case BadArguments(_, message) =>
            payload := Failure("invalid arguments for " + call.name + ": " + message);
          case Ran(_, p) => payload := p;
        }
      }
      st := st.(box := sandbox.box, events := st.events + [ResultEv(call.id, call.name, payload)],
                messages := st.messages + [ToolMsg(call.id, payload)]);
    }
    exit := None;
  }

  /** The part of a step that follows the chat. */
  method RespondTo<S>(w: World<S>, stops: nat -> Option<Reason>, sandbox: Sandbox<S>, result: ChatResult, st0: Loop<S>)
    returns (st: Loop<S>, exit: Option<Exit>)
    requires sandbox.box == st0.box
    modifies sandbox
    ensures (st, exit) == Respond(w, stops, result, st0) && sandbox.box == st.box
    ensures st.asked == st0.asked
  {
    st := st0.(promptTokens := st0.promptTokens + Tokens(result.usage, "prompt_tokens"),
               completionTokens := st0.completionTokens + Tokens(result.usage, "completion_tokens"));
    var text := w.strip(if result.text.Some? then result.text.value else "");
    if result.calls == [] {
      if text == "" {
        st := st.(messages := st.messages + [AssistantMsg(""), UserMsg(NUDGE)]);
        return st, None;
      }
      st := st.(events := st.events + [MessageEv(text, true)], messages := st.messages + [AssistantMsg(text)]);
      return st, Some(Returned(Succeeded, None, text, UsageTotal(st)));
    }
    st := st.(messages := st.messages + [AssistantCalls(text, Refs(result.calls))]);
    if text != "" {
      st := st.(events := st.events + [MessageEv(text, false)]);
    }
    st, exit := RunTools(w, stops, sandbox, result.calls, st);
  }

  /** One step of the loop. */
  method TakeTurn<S>(w: World<S>, stops: nat -> Option<Reason>, sandbox: Sandbox<S>, llm: Provider, st0: Loop<S>)
    returns (st: Loop<S>, exit: Option<Exit>)
    requires sandbox !in Objects(llm) && sandbox.box == st0.box
    modifies sandbox, Objects(llm)
    ensures (st, exit) == Turn(w, stops, ReplyAt(llm, old(Cursor(llm))), st0) && sandbox.box == st.box
    ensures exit == None ==> Cursor(llm) == old(Cursor(llm)) + 1
    ensures |st.asked| == |st0.asked| + if stops(st0.checks).Some? then 0 else 1
    ensures llm.Recorder? ==>
              var reply := ReplyAt(llm, old(Cursor(llm)));
              llm.r.steps == if stops(st0.checks) == None && reply.Chat?
                             then old(llm.r.steps) + [RecordStep(reply.result)] else old(llm.r.steps)
  {
    var reason := stops(st0.checks);
    st := st0.(checks := st0.checks + 1);
    if reason.Some? {
      return st, Some(Stopped(reason.value));
    }
    var reply := Ask(llm, st.messages);
    st := st.(asked := st.asked + [st.messages]);
    match reply
    case LlmError(message) => exit := Some(Returned(Failed, Some(ModelError), message, UsageTotal(st)));
    case Raise(exn) => exit := Some(Raised(exn));
    case Chat(result) => st, exit := RespondTo(w, stops, sandbox, result, st);
  }

  method RunAgent<S>(w: World<S>, stops: nat -> Option<Reason>, sandbox: Sandbox<S>, llm: Provider,
                     maxSteps: int, prompt: string)
    returns (st: Loop<S>, exit: Exit)
    requires sandbox !in Objects(llm)
    modifies sandbox, Objects(llm)
    ensures (st, exit) == RunSpec(w, stops, Oracle(llm, old(Cursor(llm))), maxSteps, prompt, old(sandbox.box))
    ensures sandbox.box == st.box
    ensures llm.Recorder? ==>
              llm.r.steps == old(llm.r.steps) + Recorded(Oracle(llm, old(Cursor(llm))), |st.asked|)
  {
    ghost var start := Cursor(llm);
    ghost var oracle := Oracle(llm, start);
    st := Begin(prompt, sandbox.box);
    var k: nat := 0;
    while k < maxSteps
      invariant sandbox.box == st.box && Cursor(llm) == start + k && |st.asked| == k
      invariant RunSpec(w, stops, oracle, maxSteps, prompt, old(sandbox.box)) ==
                Steps(w, stops, oracle, maxSteps, k, st)
      invariant llm.Recorder? ==> llm.r.steps == old(llm.r.steps) + Recorded(oracle, k)
      decreases maxSteps - k
    {
      assert oracle(k) == ReplyAt(llm, Cursor(llm));
      if llm.Recorder? {
        RecordedNext(old(llm.r.steps), oracle, k);
      }
      var stopped;
      st, stopped := TakeTurn(w, stops, sandbox, llm, st);
      if stopped.Some? {
        return st, stopped.value;
      }
      k := k + 1;
    }
    exit := Returned(Failed, Some(MaxSteps), GaveUpText(maxSteps), UsageTotal(st));
  }
}

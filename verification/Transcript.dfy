/** What every run of the agent loop keeps: the chat protocol of its messages, the shape of
    its events, its token account, and the outcomes it can report. */
module Transcript {
  import opened Models
  import opened Database
  import opened System
  import opened AgentLoop

  // ---------- messages ----------

  /** One tool message for each call, in order, with the call's id. */
  predicate Answers(ms: seq<Message>, refs: seq<CallRef>) {
    |ms| == |refs| && forall i :: 0 <= i < |ms| ==> ms[i].ToolMsg? && ms[i].callId == refs[i].id
  }

  /** Each assistant message with calls is followed at once by exactly its answers, and
      there is no other tool message. */
  predicate Paired(ms: seq<Message>)
    decreases |ms|
  {
    ms == [] ||
    match ms[0]
    case ToolMsg(_, _) => false
    case AssistantCalls(_, refs) =>
      |ms| > |refs| && Answers(ms[1..1 + |refs|], refs) && Paired(ms[1 + |refs|..])
    case _ => Paired(ms[1..])
  }

  /** The first message and what answers it. */
  function FirstBlock(ms: seq<Message>): (n: nat)
    requires ms != []
  {
    if ms[0].AssistantCalls? then 1 + |ms[0].calls| else 1
  }

  predicate PairedFirst(ms: seq<Message>)
    requires ms != []
  {
    && !ms[0].ToolMsg? && FirstBlock(ms) <= |ms|
    && (ms[0].AssistantCalls? ==> Answers(ms[1..FirstBlock(ms)], ms[0].calls))
  }

  lemma PairedCut(ms: seq<Message>)
    requires ms != []
    ensures Paired(ms) <==> PairedFirst(ms) && Paired(ms[FirstBlock(ms)..])
  {
  }

  lemma FirstStays(a: seq<Message>, b: seq<Message>)
    requires a != [] && PairedFirst(a)
    ensures PairedFirst(a + b) && FirstBlock(a + b) == FirstBlock(a)
    ensures (a + b)[FirstBlock(a)..] == a[FirstBlock(a)..] + b
  {
    var n := FirstBlock(a);
    assert (a + b)[0] == a[0];
    assert (a + b)[1..n] == a[1..n];
  }

  lemma {:induction false} PairedJoin(a: seq<Message>, b: seq<Message>)
    requires Paired(a) && Paired(b)
    ensures Paired(a + b)
    decreases |a|
  {
    if a == [] {
      assert a + b == b;
    } else {
      PairedCut(a);
      PairedJoin(a[FirstBlock(a)..], b);
      FirstStays(a, b);
      PairedCut(a + b);
    }
  }

  lemma PairedBlock(text: string, refs: seq<CallRef>, answers: seq<Message>)
    requires Answers(answers, refs)
    ensures Paired([AssistantCalls(text, refs)] + answers)
  {
    var block := [AssistantCalls(text, refs)] + answers;
    assert block[1..1 + |refs|] == answers && block[1 + |refs|..] == [];
  }

  function Payloads(ms: seq<Message>): seq<ToolPayload> {
    if ms == [] then [] else
      var m := ms[|ms| - 1];
      if m.ToolMsg? then Payloads(ms[..|ms| - 1]) + [m.payload] else Payloads(ms[..|ms| - 1])
  }

  lemma PayloadsSnoc(ms: seq<Message>, m: Message)
    ensures Payloads(ms + [m]) == if m.ToolMsg? then Payloads(ms) + [m.payload] else Payloads(ms)
  {
    assert (ms + [m])[..|ms|] == ms;
  }

  // ---------- events ----------

  /** `tool.call` and `tool.result` strictly alternate, with matching ids and names. */
  predicate Balanced(es: seq<AgentEvent>)
    decreases |es|
  {
    es == [] ||
    match es[0]
    case MessageEv(_, _) => Balanced(es[1..])
    case CallEv(id, name, _) =>
      |es| > 1 && es[1].ResultEv? && es[1].id == id && es[1].name == name && Balanced(es[2..])
    case ResultEv(_, _, _) => false
  }

  /** The same with one call at the end still open. */
  predicate Dangling(es: seq<AgentEvent>) {
    es != [] && es[|es| - 1].CallEv? && Balanced(es[..|es| - 1])
  }

  lemma {:induction false} BalancedJoin(a: seq<AgentEvent>, b: seq<AgentEvent>)
    requires Balanced(a) && Balanced(b)
    ensures Balanced(a + b)
    decreases |a|
  {
    if a == [] {
      assert a + b == b;
    } else if a[0].CallEv? {
      assert (a + b)[2..] == a[2..] + b;
      BalancedJoin(a[2..], b);
    } else {
      assert (a + b)[1..] == a[1..] + b;
      BalancedJoin(a[1..], b);
    }
  }

  function Results(es: seq<AgentEvent>): seq<ToolPayload> {
    if es == [] then [] else
      var e := es[|es| - 1];
      if e.ResultEv? then Results(es[..|es| - 1]) + [e.payload] else Results(es[..|es| - 1])
  }

  lemma ResultsSnoc(es: seq<AgentEvent>, e: AgentEvent)
    ensures Results(es + [e]) == if e.ResultEv? then Results(es) + [e.payload] else Results(es)
  {
    assert (es + [e])[..|es|] == es;
  }

  // ---------- the tool loop ----------

  lemma MessageStays(es: seq<AgentEvent>, text: string, final: bool)
    requires Balanced(es)
    ensures Balanced(es + [MessageEv(text, final)]) && Results(es + [MessageEv(text, final)]) == Results(es)
  {
    BalancedJoin(es, [MessageEv(text, final)]);
    ResultsSnoc(es, MessageEv(text, final));
  }

  lemma CallDangles<S>(st: Loop<S>, c: ToolRequest)
    requires Balanced(st.events) && Payloads(st.messages) == Results(st.events)
    ensures Dangling(Opened(st, c).events) && Results(Opened(st, c).events) == Results(st.events)
  {
    var call := CallEv(c.id, c.name, ArgsOf(c));
    assert (st.events + [call])[..|st.events|] == st.events;
    ResultsSnoc(st.events, call);
  }

  lemma CallPairs<S>(st: Loop<S>, c: ToolRequest, box: S, payload: ToolPayload)
    requires Balanced(st.events) && Payloads(st.messages) == Results(st.events)
    ensures var st' := Closed(Opened(st, c), c, box, payload);
            Balanced(st'.events) && Payloads(st'.messages) == Results(st'.events)
  {
    var call, result := CallEv(c.id, c.name, ArgsOf(c)), ResultEv(c.id, c.name, payload);
    assert [call, result][2..] == [];
    BalancedJoin(st.events, [call, result]);
    assert st.events + [call] + [result] == st.events + [call, result];
    ResultsSnoc(st.events, call);
    ResultsSnoc(st.events + [call], result);
    PayloadsSnoc(st.messages, ToolMsg(c.id, payload));
  }

  lemma AnswersCons(calls: seq<ToolRequest>, m: Message, rest: seq<Message>)
    requires calls != [] && m.ToolMsg? && m.callId == calls[0].id && Answers(rest, Refs(calls[1..]))
    ensures Answers([m] + rest, Refs(calls))
  {
    assert forall i :: 0 <= i < |rest| ==> Refs(calls[1..])[i] == Refs(calls)[i + 1];
  }

  /** The tool loop answers its calls one by one. It is left early only by a stop, which
      leaves no call open, or by the death of the sandbox, which leaves exactly one. */
  lemma {:induction false} ToolsProtocol<S>(w: World<S>, stops: nat -> Option<Reason>, calls: seq<ToolRequest>,
                                            st: Loop<S>)
    returns (answers: seq<Message>)
    requires Balanced(st.events) && Payloads(st.messages) == Results(st.events)
    ensures var (st', exit) := CallTools(w, stops, calls, st);
            && st'.messages == st.messages + answers
            && Payloads(st'.messages) == Results(st'.events)
            && (exit == None ==> Answers(answers, Refs(calls)))
            && (if exit == Some(SandboxDied) then Dangling(st'.events) else Balanced(st'.events))
            && (exit.Some? ==> exit.value.Stopped? || exit.value.SandboxDied?)
    decreases |calls|
  {
    answers := [];
    assert st.messages + [] == st.messages;
    if calls != [] && stops(st.checks) == None {
      var c := calls[0];
      match Invoke(w, c, st.box)
      case None => CallDangles(st, c);
      case Some((box, payload)) =>
        CallPairs(st, c, box, payload);
        var rest := ToolsProtocol(w, stops, calls[1..], Closed(Opened(st, c), c, box, payload));
        answers := [ToolMsg(c.id, payload)] + rest;
        Associative(st.messages, [ToolMsg(c.id, payload)], rest);
        if Answers(rest, Refs(calls[1..])) { AnswersCons(calls, ToolMsg(c.id, payload), rest); }
    }
  }

  // ---------- the whole loop ----------

  ghost predicate AskedPaired(asked: seq<seq<Message>>) {
    forall i :: 0 <= i < |asked| ==> Paired(asked[i])
  }

  ghost predicate Orderly<S(!new)>(st: Loop<S>) {
    && Paired(st.messages) && Balanced(st.events) && Payloads(st.messages) == Results(st.events)
    && AskedPaired(st.asked)
  }

  /** How the protocol stands at each way out. */
  ghost predicate LeftOrderly<S(!new)>(st: Loop<S>, exit: Exit) {
    && Payloads(st.messages) == Results(st.events) && AskedPaired(st.asked)
    && match exit
       case Returned(_, _, _, _) => Paired(st.messages) && Balanced(st.events)
       case Stopped(_) => Balanced(st.events)
       case SandboxDied => Dangling(st.events)
       case Raised(_) => Paired(st.messages) && Balanced(st.events)
  }

  lemma AnnounceProtocol<S(!new)>(st: Loop<S>, text: string, calls: seq<ToolRequest>)
    requires Orderly(st)
    ensures var st' := Announced(st, text, calls);
            Balanced(st'.events) && Payloads(st'.messages) == Results(st'.events)
  {
    PayloadsSnoc(st.messages, AssistantCalls(text, Refs(calls)));
    MessageStays(st.events, text, false);
  }

  lemma BlockProtocol(ms: seq<Message>, text: string, refs: seq<CallRef>, answers: seq<Message>)
    requires Paired(ms) && Answers(answers, refs)
    ensures Paired(ms + [AssistantCalls(text, refs)] + answers)
  {
    PairedBlock(text, refs, answers);
    PairedJoin(ms, [AssistantCalls(text, refs)] + answers);
    Associative(ms, [AssistantCalls(text, refs)], answers);
  }

  lemma PlainProtocol(ms: seq<Message>, m: Message)
    requires Paired(ms) && !m.ToolMsg? && !m.AssistantCalls?
    ensures Paired(ms + [m]) && Payloads(ms + [m]) == Payloads(ms)
  {
    PairedJoin(ms, [m]);
    PayloadsSnoc(ms, m);
  }

  lemma CallsProtocol<S(!new)>(w: World<S>, stops: nat -> Option<Reason>, text: string, calls: seq<ToolRequest>,
                              st: Loop<S>)
    requires Orderly(st) && calls != []
    ensures var (st', exit) := CallTools(w, stops, calls, Announced(st, text, calls));
            if exit == None then Orderly(st') else LeftOrderly(st', exit.value)
  {
    AnnounceProtocol(st, text, calls);
    var answers := ToolsProtocol(w, stops, calls, Announced(st, text, calls));
    ToolsKeep(w, stops, calls, Announced(st, text, calls));
    if Answers(answers, Refs(calls)) {
      BlockProtocol(st.messages, text, Refs(calls), answers);
    }
  }

  lemma NudgeProtocol(ms: seq<Message>)
    requires Paired(ms)
    ensures var ms' := ms + [AssistantMsg(""), UserMsg(NUDGE)]; Paired(ms') && Payloads(ms') == Payloads(ms)
  {
    PlainProtocol(ms, AssistantMsg(""));
    PlainProtocol(ms + [AssistantMsg("")], UserMsg(NUDGE));
    assert ms + [AssistantMsg(""), UserMsg(NUDGE)] == ms + [AssistantMsg("")] + [UserMsg(NUDGE)];
  }

  lemma RespondProtocol<S(!new)>(w: World<S>, stops: nat -> Option<Reason>, r: ChatResult, st: Loop<S>)
    requires Orderly(st)
    ensures var (st', exit) := Respond(w, stops, r, st);
            if exit == None then Orderly(st') else LeftOrderly(st', exit.value)
  {
    var text := w.strip(if r.text.Some? then r.text.value else "");
    if r.calls != [] {
      CallsProtocol(w, stops, text, r.calls, Charged(st, r.usage));
    } else if text == "" {
      NudgeProtocol(st.messages);
    } else {
      PlainProtocol(st.messages, AssistantMsg(text));
      MessageStays(st.events, text, true);
    }
  }

  lemma TurnProtocol<S(!new)>(w: World<S>, stops: nat -> Option<Reason>, reply: Reply, st: Loop<S>)
    requires Orderly(st)
    ensures var (st', exit) := Turn(w, stops, reply, st);
            if exit == None then Orderly(st') else LeftOrderly(st', exit.value)
  {
    if stops(st.checks) == None && reply.Chat? {
      RespondProtocol(w, stops, reply.result, st.(checks := st.checks + 1, asked := st.asked + [st.messages]));
    }
  }

  lemma {:induction false} StepsProtocol<S(!new)>(w: World<S>, stops: nat -> Option<Reason>, llm: nat -> Reply,
                                                  maxSteps: int, k: nat, st: Loop<S>)
    requires Orderly(st)
    ensures var (st', exit) := Steps(w, stops, llm, maxSteps, k, st); LeftOrderly(st', exit)
    decreases maxSteps - k
  {
    if k < maxSteps {
      TurnProtocol(w, stops, llm(k), st);
      var (st', exit) := Turn(w, stops, llm(k), st);
      if exit == None {
        StepsProtocol(w, stops, llm, maxSteps, k + 1, st');
      }
    }
  }

  /** For any model, any sandbox and any stop: every chat gets a well-paired transcript,
      so does every returned outcome; the i-th tool message carries the payload of the
      i-th `tool.result`; calls and results alternate; a stop leaves no open call and a
      dead sandbox exactly one. */
  lemma TranscriptProtocol<S(!new)>(w: World<S>, stops: nat -> Option<Reason>, llm: nat -> Reply,
                                    maxSteps: int, prompt: string, box: S)
    ensures var (st, exit) := RunSpec(w, stops, llm, maxSteps, prompt, box); LeftOrderly(st, exit)
  {
    var st := Begin(prompt, box);
    assert st.messages[1..][1..] == [];
    assert st.messages == [] + [SystemMsg] + [UserMsg(prompt)];
    PayloadsSnoc([], SystemMsg);
    PayloadsSnoc([] + [SystemMsg], UserMsg(prompt));
    StepsProtocol(w, stops, llm, maxSteps, 0, st);
  }

  // ---------- what the model is asked ----------

  /** Each chat gets all messages of the one before, and the last one's are still there. */
  ghost predicate Chained<S(!new)>(st: Loop<S>) {
    && (forall i :: 0 <= i < |st.asked| - 1 ==> st.asked[i] <= st.asked[i + 1])
    && (st.asked != [] ==> st.asked[|st.asked| - 1] <= st.messages)
  }

  lemma {:induction false} ToolsExtend<S>(w: World<S>, stops: nat -> Option<Reason>, calls: seq<ToolRequest>,
                                          st: Loop<S>)
    ensures st.messages <= CallTools(w, stops, calls, st).0.messages
    ensures CallTools(w, stops, calls, st).0.asked == st.asked
    decreases |calls|
  {
    if calls != [] && stops(st.checks) == None {
      match Invoke(w, calls[0], st.box)
      case None =>
      case Some((box, payload)) =>
        ToolsExtend(w, stops, calls[1..], Closed(Opened(st, calls[0]), calls[0], box, payload));
    }
  }

  /** The message that answers a chat: the model's text, stripped, with its calls if any. */
  predicate Echoes<S>(w: World<S>, m: Message, r: ChatResult) {
    var text := w.strip(if r.text.Some? then r.text.value else "");
    if r.calls == [] then m == AssistantMsg(text)
    else m.AssistantCalls? && m.text == text && |m.calls| == |r.calls|
         && forall j :: 0 <= j < |r.calls| ==>
              m.calls[j].id == r.calls[j].id && m.calls[j].name == r.calls[j].name
              && m.calls[j].args == (if r.calls[j].args.Some? then r.calls[j].args.value else map[])
  }

  lemma RespondExtends<S>(w: World<S>, stops: nat -> Option<Reason>, r: ChatResult, st: Loop<S>)
    ensures var st' := Respond(w, stops, r, st).0;
            && st.messages <= st'.messages && st'.asked == st.asked
            && Follows(w, st.messages, st'.messages, r)
  {
    if r.calls != [] {
      var text := w.strip(if r.text.Some? then r.text.value else "");
      var st1 := Announced(Charged(st, r.usage), text, r.calls);
      ToolsExtend(w, stops, r.calls, st1);
      assert st1.messages[|st.messages|] == AssistantCalls(text, Refs(r.calls));
    }
  }

  /** The first chat gets the task; the answer of each chat stands right after what the
      chat got, whatever the messages are used for later. */
  ghost predicate Answered<S(!new)>(w: World<S>, llm: nat -> Reply, st: Loop<S>) {
    forall i :: 0 <= i < |st.asked| && llm(i).Chat? ==> Follows(w, st.asked[i], st.messages, llm(i).result)
  }

  predicate Follows<S>(w: World<S>, got: seq<Message>, messages: seq<Message>, r: ChatResult) {
    && got <= messages && |messages| > |got| && Echoes(w, messages[|got|], r)
    && (messages[|got|] == AssistantMsg("") ==> |messages| > |got| + 1 && messages[|got| + 1] == UserMsg(NUDGE))
  }

  /** One more chat, with what it got and what it answered. */
  predicate Grown<S>(w: World<S>, st: Loop<S>, st': Loop<S>, reply: Reply) {
    && st.messages <= st'.messages
    && (st'.asked == st.asked
        || (st'.asked == st.asked + [st.messages]
            && (reply.Chat? ==> Follows(w, st.messages, st'.messages, reply.result))))
  }

  lemma TurnGrows<S(!new)>(w: World<S>, stops: nat -> Option<Reason>, reply: Reply, st: Loop<S>)
    ensures Grown(w, st, Turn(w, stops, reply, st).0, reply)
  {
    if stops(st.checks) == None && reply.Chat? {
      RespondExtends(w, stops, reply.result, st.(checks := st.checks + 1, asked := st.asked + [st.messages]));
    }
  }

  lemma FollowsStill<S>(w: World<S>, got: seq<Message>, ms: seq<Message>, ms': seq<Message>, r: ChatResult)
    requires Follows(w, got, ms, r) && ms <= ms'
    ensures Follows(w, got, ms', r)
  {
  }

  lemma GrownKeeps<S(!new)>(w: World<S>, llm: nat -> Reply, st: Loop<S>, st': Loop<S>)
    requires Chained(st) && Answered(w, llm, st) && Grown(w, st, st', llm(|st.asked|))
    ensures Chained(st') && Answered(w, llm, st') && st.asked <= st'.asked && |st'.asked| <= |st.asked| + 1
    ensures st.asked == [] && st'.asked != [] ==> st'.asked[0] == st.messages
  {
    forall i | 0 <= i < |st'.asked| && llm(i).Chat? ensures Follows(w, st'.asked[i], st'.messages, llm(i).result) {
      if i < |st.asked| {
        FollowsStill(w, st.asked[i], st.messages, st'.messages, llm(i).result);
      }
    }
  }

  /** From `st` to `st'` the messages have only grown, and the chats are still in order. */
  ghost predicate Onward<S(!new)>(w: World<S>, llm: nat -> Reply, st: Loop<S>, st': Loop<S>) {
    && Chained(st') && Answered(w, llm, st') && st.messages <= st'.messages && st.asked <= st'.asked
    && (st.asked == [] && st'.asked != [] ==> st'.asked[0] == st.messages)
  }

  lemma OnwardAgain<S(!new)>(w: World<S>, llm: nat -> Reply, a: Loop<S>, b: Loop<S>, c: Loop<S>)
    requires Onward(w, llm, a, b) && Onward(w, llm, b, c) && b.asked != []
    ensures Onward(w, llm, a, c)
  {
    assert c.asked[0] == b.asked[0];
  }

  lemma TurnExtends<S(!new)>(w: World<S>, stops: nat -> Option<Reason>, llm: nat -> Reply, maxSteps: int, k: nat,
                             st: Loop<S>)
    returns (next: Loop<S>, exit: Option<Exit>)
    requires Chained(st) && Answered(w, llm, st) && |st.asked| == k < maxSteps
    ensures Onward(w, llm, st, next)
    ensures exit.Some? ==> Steps(w, stops, llm, maxSteps, k, st) == (next, exit.value)
    ensures exit == None ==>
              Steps(w, stops, llm, maxSteps, k, st) == Steps(w, stops, llm, maxSteps, k + 1, next)
              && |next.asked| == k + 1
  {
    TurnGrows(w, stops, llm(k), st);
    TurnTokens(w, stops, llm(k), st);
    var turn := Turn(w, stops, llm(k), st);
    next, exit := turn.0, turn.1;
    GrownKeeps(w, llm, st, next);
  }

  lemma {:induction false} StepsExtend<S(!new)>(w: World<S>, stops: nat -> Option<Reason>, llm: nat -> Reply,
                                                maxSteps: int, k: nat, st: Loop<S>)
    requires Chained(st) && Answered(w, llm, st) && |st.asked| == k
    ensures Onward(w, llm, st, Steps(w, stops, llm, maxSteps, k, st).0)
    decreases maxSteps - k
  {
    if k < maxSteps {
      var next, exit := TurnExtends(w, stops, llm, maxSteps, k, st);
      if exit == None {
        StepsExtend(w, stops, llm, maxSteps, k + 1, next);
        OnwardAgain(w, llm, st, next, Steps(w, stops, llm, maxSteps, k + 1, next).0);
      }
    }
  }

  /** What the model is asked in any run: first the system prompt and the user's task and
      nothing else; each later chat gets all that the one before got; and after what a chat
      got stands its answer, with its text and its calls, or, if it said nothing, a nudge. */
  lemma ModelIsAsked<S(!new)>(w: World<S>, stops: nat -> Option<Reason>, llm: nat -> Reply,
                              maxSteps: int, prompt: string, box: S)
    ensures var st := RunSpec(w, stops, llm, maxSteps, prompt, box).0;
            && [SystemMsg, UserMsg(prompt)] <= st.messages
            && (st.asked != [] ==> st.asked[0] == [SystemMsg, UserMsg(prompt)])
            && (forall i :: 0 <= i < |st.asked| - 1 ==> st.asked[i] <= st.asked[i + 1])
            && (st.asked != [] ==> st.asked[|st.asked| - 1] <= st.messages)
            && (forall i :: 0 <= i < |st.asked| && llm(i).Chat? ==>
                  Follows(w, st.asked[i], st.messages, llm(i).result))
  {
    StepsExtend(w, stops, llm, maxSteps, 0, Begin(prompt, box));
  }

  // ---------- tokens ----------

  function Spent(llm: nat -> Reply, name: string, n: nat): int {
    if n == 0 then 0
    else Spent(llm, name, n - 1) + if llm(n - 1).Chat? then Tokens(llm(n - 1).result.usage, name) else 0
  }

  lemma ToolsKeep<S>(w: World<S>, stops: nat -> Option<Reason>, calls: seq<ToolRequest>, st: Loop<S>)
    ensures var (st', exit) := CallTools(w, stops, calls, st);
            && st'.asked == st.asked && st'.promptTokens == st.promptTokens
            && st'.completionTokens == st.completionTokens
            && (exit.Some? ==> exit.value.Stopped? || exit.value.SandboxDied?)
    decreases |calls|
  {
    if calls != [] && stops(st.checks) == None {
      var c := calls[0];
      match Invoke(w, c, st.box)
      case None =>
      case Some((box, payload)) => ToolsKeep(w, stops, calls[1..], Closed(Opened(st, c), c, box, payload));
    }
  }

  /** What `run_agent` can return, and what it says about the tokens. */
  predicate FairReturn<S>(st: Loop<S>, exit: Exit) {
    exit.Returned? ==>
      && exit.usage == UsageTotal(st)
      && (|| (exit.status == Succeeded && exit.reason == None && exit.summary != "")
          || (exit.status == Failed && (exit.reason == Some(ModelError) || exit.reason == Some(MaxSteps))))
  }

  lemma TurnTokens<S>(w: World<S>, stops: nat -> Option<Reason>, reply: Reply, st: Loop<S>)
    ensures var (st', exit) := Turn(w, stops, reply, st);
            var r := if |st'.asked| > |st.asked| && reply.Chat? then reply.result.usage else map[];
            && st'.promptTokens == st.promptTokens + Tokens(r, "prompt_tokens")
            && st'.completionTokens == st.completionTokens + Tokens(r, "completion_tokens")
            && |st'.asked| == |st.asked| + (if stops(st.checks).Some? then 0 else 1)
            && (exit == None ==> stops(st.checks) == None)
            && (exit.Some? ==> FairReturn(st', exit.value))
  {
    if stops(st.checks) == None && reply.Chat? {
      var r := reply.result;
      var text := w.strip(if r.text.Some? then r.text.value else "");
      var st1 := Charged(st.(checks := st.checks + 1, asked := st.asked + [st.messages]), r.usage);
      ToolsKeep(w, stops, r.calls, Announced(st1, text, r.calls));
    }
  }

  /** The account after `k` chats. */
  predicate Counted<S>(st: Loop<S>, llm: nat -> Reply, k: nat) {
    && |st.asked| == k
    && st.promptTokens == Spent(llm, "prompt_tokens", k)
    && st.completionTokens == Spent(llm, "completion_tokens", k)
  }

  /** The account when the loop was left, from step `k` on. */
  predicate CountedOut<S>(st: Loop<S>, exit: Exit, llm: nat -> Reply, k: nat, most: int) {
    && Counted(st, llm, |st.asked|) && FairReturn(st, exit)
    && k <= |st.asked| && (|st.asked| <= most || |st.asked| == k)
  }

  lemma TurnCounts<S>(w: World<S>, stops: nat -> Option<Reason>, llm: nat -> Reply, k: nat, st: Loop<S>)
    requires Counted(st, llm, k)
    ensures var (st', exit) := Turn(w, stops, llm(k), st);
            if exit.Some? then CountedOut(st', exit.value, llm, k, k + 1) else Counted(st', llm, k + 1)
  {
    TurnTokens(w, stops, llm(k), st);
  }

  /** One step: the loop is left, or goes on from `next`. */
  lemma CountedStep<S>(w: World<S>, stops: nat -> Option<Reason>, llm: nat -> Reply, maxSteps: int, k: nat, st: Loop<S>)
    returns (next: Loop<S>, exit: Option<Exit>)
    requires Counted(st, llm, k) && k < maxSteps
    ensures exit.Some? ==>
              Steps(w, stops, llm, maxSteps, k, st) == (next, exit.value) && CountedOut(next, exit.value, llm, k, k + 1)
    ensures exit == None ==>
              Steps(w, stops, llm, maxSteps, k, st) == Steps(w, stops, llm, maxSteps, k + 1, next)
              && Counted(next, llm, k + 1)
  {
    TurnCounts(w, stops, llm, k, st);
    var turn := Turn(w, stops, llm(k), st);
    next, exit := turn.0, turn.1;
  }

  lemma {:induction false} StepsTokens<S>(w: World<S>, stops: nat -> Option<Reason>, llm: nat -> Reply,
                                          maxSteps: int, k: nat, st: Loop<S>)
    requires Counted(st, llm, k)
    ensures var (st', exit) := Steps(w, stops, llm, maxSteps, k, st); CountedOut(st', exit, llm, k, maxSteps)
    decreases maxSteps - k
  {
    if k < maxSteps {
      var next, exit := CountedStep(w, stops, llm, maxSteps, k, st);
      if exit == None {
        StepsTokens(w, stops, llm, maxSteps, k + 1, next);
      }
    }
  }

  /** The reported usage is the sum over all chats that were made, at most `maxSteps`. */
  lemma UsageIsTheSum<S>(w: World<S>, stops: nat -> Option<Reason>, llm: nat -> Reply,
                         maxSteps: int, prompt: string, box: S)
    ensures var (st, exit) := RunSpec(w, stops, llm, maxSteps, prompt, box);
            && (|st.asked| <= maxSteps || st.asked == [])
            && FairReturn(st, exit)
            && (exit.Returned? ==>
                  Tokens(exit.usage, "prompt_tokens") == Spent(llm, "prompt_tokens", |st.asked|)
                  && Tokens(exit.usage, "completion_tokens") == Spent(llm, "completion_tokens", |st.asked|))
  {
    StepsTokens(w, stops, llm, maxSteps, 0, Begin(prompt, box));
  }

  // ---------- from the loop to the report of the attempt ----------

  /** worker/attempt.py: the outcome of an attempt, given what the reaper put into
      `stop_reason` and whether the sandbox was killed for memory. `None` if the
      exception escapes. */
  function ReportOf(exit: Exit, stop: Option<Reason>, oomKilled: bool, artifacts: seq<string>): Option<Report> {
    match exit
    case Returned(status, reason, summary, usage) =>
      Some(Report(status, reason, Some(summary), Some(usage), Some(artifacts)))
    case Stopped(why) => Some(StopReport(why, artifacts))
    case SandboxDied =>
      if stop.Some? then Some(StopReport(stop.value, artifacts))
      else if oomKilled then
        Some(Report(Failed, Some(SandboxOom), Some("sandbox out of memory"), None, Some(artifacts)))
      else Some(Report(Failed, Some(ToolError), Some("sandbox died unexpectedly"), None, Some(artifacts)))
    case Raised(_) => None
  }

  function StopReport(why: Reason, artifacts: seq<string>): Report {
    Report(if why == UserCancelled then Cancelled else Failed, Some(why),
           Some("stopped: " + ReasonName(why)), None, Some(artifacts))
  }

  /** Whatever the loop does, the report is one of those the transition system allows. */
  lemma EveryReportConcludes<S>(w: World<S>, stops: nat -> Option<Reason>, llm: nat -> Reply, maxSteps: int,
                                prompt: string, box: S, stop: Option<Reason>, oomKilled: bool, artifacts: seq<string>)
    requires var exit := RunSpec(w, stops, llm, maxSteps, prompt, box).1; exit.Stopped? ==> stop == Some(exit.why)
    ensures var r := ReportOf(RunSpec(w, stops, llm, maxSteps, prompt, box).1, stop, oomKilled, artifacts);
            r.Some? ==> Concludes(stop, r.value)
  {
    UsageIsTheSum(w, stops, llm, maxSteps, prompt, box);
  }
}

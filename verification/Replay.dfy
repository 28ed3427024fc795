/** worker/record.py and agent/mock.py: a recorded run, replayed, does the same again. */
module Replay {
  import opened Models
  import opened Decimals
  import opened AgentLoop

  // ---------- runs that agree up to call ids ----------

  function BareRefs(refs: seq<CallRef>): seq<CallRef> {
    seq(|refs|, i requires 0 <= i < |refs| => refs[i].(id := ""))
  }

  function BareMessage(m: Message): Message {
    match m
    case AssistantCalls(text, refs) => AssistantCalls(text, BareRefs(refs))
    case ToolMsg(_, payload) => ToolMsg("", payload)
    case _ => m
  }

  function BareMessages(ms: seq<Message>): seq<Message> {
    seq(|ms|, i requires 0 <= i < |ms| => BareMessage(ms[i]))
  }

  function BareEvent(e: AgentEvent): AgentEvent {
    if e.MessageEv? then e else e.(id := "")
  }

  function BareEvents(es: seq<AgentEvent>): seq<AgentEvent> {
    seq(|es|, i requires 0 <= i < |es| => BareEvent(es[i]))
  }

  /** Same messages and events but for the call ids; same sandbox, tokens and chats. */
  ghost predicate Alike<S(!new)>(a: Loop<S>, b: Loop<S>) {
    && BareMessages(a.messages) == BareMessages(b.messages)
    && BareEvents(a.events) == BareEvents(b.events)
    && a.box == b.box && a.promptTokens == b.promptTokens && a.completionTokens == b.completionTokens
    && |a.asked| == |b.asked|
  }

  predicate SameCall(c: ToolRequest, d: ToolRequest) {
    c.name == d.name && ArgsOf(c) == ArgsOf(d) && !Truthy(c.parseError) && !Truthy(d.parseError)
  }

  predicate SameCalls(cs: seq<ToolRequest>, ds: seq<ToolRequest>) {
    |cs| == |ds| && forall j :: 0 <= j < |cs| ==> SameCall(cs[j], ds[j])
  }

  predicate SameResult(r: ChatResult, q: ChatResult) {
    r.text == q.text && r.usage == q.usage && SameCalls(r.calls, q.calls)
  }

  predicate NoStop(stops: nat -> Option<Reason>, n: nat) {
    stops(n) == None
  }

  ghost predicate NeverStops(stops: nat -> Option<Reason>) {
    forall n :: NoStop(stops, n)
  }

  lemma BareMessagesSnoc(ms: seq<Message>, m: Message)
    ensures BareMessages(ms + [m]) == BareMessages(ms) + [BareMessage(m)]
  {
  }

  lemma BareEventsSnoc(es: seq<AgentEvent>, e: AgentEvent)
    ensures BareEvents(es + [e]) == BareEvents(es) + [BareEvent(e)]
  {
  }

  lemma SameInvoke<S(!new)>(w: World<S>, c: ToolRequest, d: ToolRequest, box: S)
    requires SameCall(c, d)
    ensures Invoke(w, c, box) == Invoke(w, d, box)
  {
  }

  lemma OpenedAlike<S(!new)>(a: Loop<S>, b: Loop<S>, c: ToolRequest, d: ToolRequest)
    requires Alike(a, b) && SameCall(c, d)
    ensures Alike(Opened(a, c), Opened(b, d))
  {
    BareEventsSnoc(a.events, CallEv(c.id, c.name, ArgsOf(c)));
    BareEventsSnoc(b.events, CallEv(d.id, d.name, ArgsOf(d)));
  }

  lemma ClosedAlike<S(!new)>(a: Loop<S>, b: Loop<S>, c: ToolRequest, d: ToolRequest, box: S, payload: ToolPayload)
    requires Alike(a, b) && SameCall(c, d)
    ensures Alike(Closed(a, c, box, payload), Closed(b, d, box, payload))
  {
    BareEventsSnoc(a.events, ResultEv(c.id, c.name, payload));
    BareEventsSnoc(b.events, ResultEv(d.id, d.name, payload));
    BareMessagesSnoc(a.messages, ToolMsg(c.id, payload));
    BareMessagesSnoc(b.messages, ToolMsg(d.id, payload));
  }

  lemma {:induction false} ToolsAlike<S(!new)>(w: World<S>, sa: nat -> Option<Reason>, sb: nat -> Option<Reason>,
                                               cs: seq<ToolRequest>, ds: seq<ToolRequest>, a: Loop<S>, b: Loop<S>)
    requires NeverStops(sa) && NeverStops(sb) && SameCalls(cs, ds) && Alike(a, b)
    ensures Alike(CallTools(w, sa, cs, a).0, CallTools(w, sb, ds, b).0)
    ensures CallTools(w, sa, cs, a).1 == CallTools(w, sb, ds, b).1
    decreases |cs|
  {
    assert NoStop(sa, a.checks) && NoStop(sb, b.checks);
    if cs != [] {
      OpenedAlike(a, b, cs[0], ds[0]);
      SameInvoke(w, cs[0], ds[0], a.box);
      match Invoke(w, cs[0], a.box)
      case None =>
      case Some((box, payload)) =>
        var a', b' := Closed(Opened(a, cs[0]), cs[0], box, payload), Closed(Opened(b, ds[0]), ds[0], box, payload);
        ClosedAlike(Opened(a, cs[0]), Opened(b, ds[0]), cs[0], ds[0], box, payload);
        ToolsAlike(w, sa, sb, cs[1..], ds[1..], a', b');
    }
  }

  lemma AnnouncedAlike<S(!new)>(a: Loop<S>, b: Loop<S>, text: string, cs: seq<ToolRequest>, ds: seq<ToolRequest>)
    requires Alike(a, b) && SameCalls(cs, ds)
    ensures Alike(Announced(a, text, cs), Announced(b, text, ds))
  {
    BareMessagesSnoc(a.messages, AssistantCalls(text, Refs(cs)));
    BareMessagesSnoc(b.messages, AssistantCalls(text, Refs(ds)));
    assert BareRefs(Refs(cs)) == BareRefs(Refs(ds));
    BareEventsSnoc(a.events, MessageEv(text, false));
    BareEventsSnoc(b.events, MessageEv(text, false));
  }

  lemma PlainAlike<S(!new)>(a: Loop<S>, b: Loop<S>, text: string)
    requires Alike(a, b)
    ensures Alike(a.(events := a.events + [MessageEv(text, true)], messages := a.messages + [AssistantMsg(text)]),
                  b.(events := b.events + [MessageEv(text, true)], messages := b.messages + [AssistantMsg(text)]))
    ensures Alike(a.(messages := a.messages + [AssistantMsg(text), UserMsg(NUDGE)]),
                  b.(messages := b.messages + [AssistantMsg(text), UserMsg(NUDGE)]))
  {
    BareEventsSnoc(a.events, MessageEv(text, true));
    BareEventsSnoc(b.events, MessageEv(text, true));
    BareMessagesSnoc(a.messages, AssistantMsg(text));
    BareMessagesSnoc(b.messages, AssistantMsg(text));
    BareMessagesSnoc(a.messages + [AssistantMsg(text)], UserMsg(NUDGE));
    BareMessagesSnoc(b.messages + [AssistantMsg(text)], UserMsg(NUDGE));
    assert forall ms: seq<Message> ::
        ms + [AssistantMsg(text), UserMsg(NUDGE)] == ms + [AssistantMsg(text)] + [UserMsg(NUDGE)];
  }

  lemma RespondAlike<S(!new)>(w: World<S>, sa: nat -> Option<Reason>, sb: nat -> Option<Reason>,
                              r: ChatResult, q: ChatResult, a: Loop<S>, b: Loop<S>)
    requires NeverStops(sa) && NeverStops(sb) && SameResult(r, q) && Alike(a, b)
    ensures Alike(Respond(w, sa, r, a).0, Respond(w, sb, q, b).0)
    ensures Respond(w, sa, r, a).1 == Respond(w, sb, q, b).1
  {
    var text := w.strip(if r.text.Some? then r.text.value else "");
    var a1, b1 := Charged(a, r.usage), Charged(b, q.usage);
    if r.calls != [] {
      AnnouncedAlike(a1, b1, text, r.calls, q.calls);
      ToolsAlike(w, sa, sb, r.calls, q.calls, Announced(a1, text, r.calls), Announced(b1, text, q.calls));
    } else {
      PlainAlike(a1, b1, text);
    }
  }

  // ---------- a successful run ----------

  predicate Succeeds(exit: Exit) {
    exit.Returned? && exit.status == Succeeded
  }

  lemma RespondAsks<S(!new)>(w: World<S>, stops: nat -> Option<Reason>, r: ChatResult, st: Loop<S>)
    ensures Respond(w, stops, r, st).0.asked == st.asked
  {
    if r.calls != [] {
      var text := w.strip(if r.text.Some? then r.text.value else "");
      ToolsAsk(w, stops, r.calls, Announced(Charged(st, r.usage), text, r.calls));
    }
  }

  lemma {:induction false} ToolsAsk<S(!new)>(w: World<S>, stops: nat -> Option<Reason>, calls: seq<ToolRequest>,
                                             st: Loop<S>)
    ensures CallTools(w, stops, calls, st).0.asked == st.asked
    decreases |calls|
  {
    if calls != [] && stops(st.checks) == None {
      match Invoke(w, calls[0], st.box)
      case None =>
      case Some((box, payload)) =>
        ToolsAsk(w, stops, calls[1..], Closed(Opened(st, calls[0]), calls[0], box, payload));
    }
  }

  /** Step `k` of the second run does what step `k` of the first did. */
  ghost predicate Reproduces(la: nat -> Reply, lb: nat -> Reply, n: nat) {
    forall k :: 0 <= k < n && la(k).Chat? ==> lb(k).Chat? && SameResult(la(k).result, lb(k).result)
  }

  lemma {:induction false} AskedGrows<S(!new)>(w: World<S>, stops: nat -> Option<Reason>, llm: nat -> Reply,
                                               maxSteps: int, k: nat, st: Loop<S>)
    requires NeverStops(stops)
    ensures |Steps(w, stops, llm, maxSteps, k, st).0.asked| >= |st.asked|
    ensures Succeeds(Steps(w, stops, llm, maxSteps, k, st).1) ==>
              k < maxSteps && llm(k).Chat? && |Steps(w, stops, llm, maxSteps, k, st).0.asked| > |st.asked|
    decreases maxSteps - k
  {
    assert NoStop(stops, st.checks);
    if k < maxSteps && llm(k).Chat? {
      var st1 := st.(checks := st.checks + 1, asked := st.asked + [st.messages]);
      RespondAsks(w, stops, llm(k).result, st1);
      var (st', exit) := Respond(w, stops, llm(k).result, st1);
      if exit == None {
        AskedGrows(w, stops, llm, maxSteps, k + 1, st');
      }
    }
  }

  lemma TurnAlike<S(!new)>(w: World<S>, sa: nat -> Option<Reason>, sb: nat -> Option<Reason>,
                           ra: Reply, rb: Reply, a: Loop<S>, b: Loop<S>)
    requires NeverStops(sa) && NeverStops(sb) && Alike(a, b)
    requires ra.Chat? && rb.Chat? && SameResult(ra.result, rb.result)
    ensures Alike(Turn(w, sa, ra, a).0, Turn(w, sb, rb, b).0)
    ensures Turn(w, sa, ra, a).1 == Turn(w, sb, rb, b).1
    ensures |Turn(w, sa, ra, a).0.asked| == |a.asked| + 1
  {
    assert NoStop(sa, a.checks) && NoStop(sb, b.checks);
    var a1 := a.(checks := a.checks + 1, asked := a.asked + [a.messages]);
    var b1 := b.(checks := b.checks + 1, asked := b.asked + [b.messages]);
    RespondAsks(w, sa, ra.result, a1);
    RespondAlike(w, sa, sb, ra.result, rb.result, a1, b1);
  }

  /** Two runs over replies that agree wherever the first got an answer: if the first
      succeeds after `n` chats, the second succeeds after `n` chats in the same way. */
  lemma {:induction false} StepsAlike<S(!new)>(w: World<S>, sa: nat -> Option<Reason>, sb: nat -> Option<Reason>,
                                               la: nat -> Reply, lb: nat -> Reply, maxA: int, maxB: int,
                                               k: nat, a: Loop<S>, b: Loop<S>, n: nat)
    requires NeverStops(sa) && NeverStops(sb) && Alike(a, b) && |a.asked| == k
    requires Succeeds(Steps(w, sa, la, maxA, k, a).1) && n == |Steps(w, sa, la, maxA, k, a).0.asked|
    requires Reproduces(la, lb, n) && maxB >= n
    ensures Steps(w, sb, lb, maxB, k, b).1 == Steps(w, sa, la, maxA, k, a).1
    ensures Alike(Steps(w, sa, la, maxA, k, a).0, Steps(w, sb, lb, maxB, k, b).0)
    decreases maxA - k
  {
    AskedGrows(w, sa, la, maxA, k, a);
    TurnAlike(w, sa, sb, la(k), lb(k), a, b);
    if Turn(w, sa, la(k), a).1 == None {
      StepsAlike(w, sa, sb, la, lb, maxA, maxB, k + 1, Turn(w, sa, la(k), a).0, Turn(w, sb, lb(k), b).0, n);
    }
  }

  /** In a successful run every chat got an answer. */
  lemma {:induction false} AllAnswered<S(!new)>(w: World<S>, stops: nat -> Option<Reason>, llm: nat -> Reply,
                                                maxSteps: int, k: nat, st: Loop<S>)
    requires NeverStops(stops) && |st.asked| == k && Succeeds(Steps(w, stops, llm, maxSteps, k, st).1)
    ensures forall i :: k <= i < |Steps(w, stops, llm, maxSteps, k, st).0.asked| ==> llm(i).Chat?
    decreases maxSteps - k
  {
    AskedGrows(w, stops, llm, maxSteps, k, st);
    assert NoStop(stops, st.checks);
    var st1 := st.(checks := st.checks + 1, asked := st.asked + [st.messages]);
    RespondAsks(w, stops, llm(k).result, st1);
    if Turn(w, stops, llm(k), st).1 == None {
      AllAnswered(w, stops, llm, maxSteps, k + 1, Turn(w, stops, llm(k), st).0);
    }
  }

  // ---------- record, then replay ----------

  lemma {:induction false} RecordedSteps(llm: nat -> Reply, n: nat)
    requires forall i :: 0 <= i < n ==> llm(i).Chat?
    ensures |Recorded(llm, n)| == n
    ensures forall i :: 0 <= i < n ==> Recorded(llm, n)[i] == RecordStep(llm(i).result)
  {
    if n > 0 {
      RecordedSteps(llm, n - 1);
    }
  }

  /** A reply that the recorder let through comes back, but for its call ids. */
  lemma ReplayedReply(inner: Reply, steps: seq<RecordedStep>, k: nat)
    requires Clean(inner).Chat? && k < |steps| && steps[k] == RecordStep(Clean(inner).result)
    ensures SameResult(Clean(inner).result, ReplayReply(steps, k).result)
  {
  }

  /** Record and replay: over a deterministic sandbox and without a stop request, let a run
      against any model succeed while it is being recorded. Then replaying the recorded
      steps from the same sandbox state, with a step limit that admits them, ends in the
      same way, with the same usage and summary, the same final sandbox, and the same
      events and messages but for the call ids; it uses every step exactly once. */
  lemma ReplayReproduces<S(!new)>(w: World<S>, sa: nat -> Option<Reason>, sb: nat -> Option<Reason>,
                                  model: nat -> Reply, recorder: nat -> Reply, mock: nat -> Reply,
                                  maxSteps: int, maxSteps': int, prompt: string, box: S, steps: seq<RecordedStep>)
    requires NeverStops(sa) && NeverStops(sb)
    requires forall k :: recorder(k) == Clean(model(k))
    requires Succeeds(RunSpec(w, sa, recorder, maxSteps, prompt, box).1)
    requires steps == Recorded(recorder, |RunSpec(w, sa, recorder, maxSteps, prompt, box).0.asked|)
    requires forall k :: mock(k) == ReplayReply(steps, k)
    requires maxSteps' >= |steps|
    ensures var (st, exit) := RunSpec(w, sa, recorder, maxSteps, prompt, box);
            var (st', exit') := RunSpec(w, sb, mock, maxSteps', prompt, box);
            exit' == exit && Alike(st, st') && |st'.asked| == |steps|
  {
    var st := Begin(prompt, box);
    var n := |RunSpec(w, sa, recorder, maxSteps, prompt, box).0.asked|;
    AllAnswered(w, sa, recorder, maxSteps, 0, st);
    RecordedSteps(recorder, n);
    forall k | 0 <= k < n && recorder(k).Chat?
      ensures mock(k).Chat? && SameResult(recorder(k).result, mock(k).result)
    {
      ReplayedReply(model(k), steps, k);
    }
    StepsAlike(w, sa, sb, recorder, mock, maxSteps, maxSteps', 0, st, st, n);
  }

  // ---------- replayed call ids ----------

  predicate NoDash(s: string) {
    forall i :: 0 <= i < |s| ==> s[i] != '-'
  }

  lemma SplitAtDash(a: string, b: string, a': string, b': string)
    requires NoDash(a) && NoDash(a') && a + "-" + b == a' + "-" + b'
    ensures a == a' && b == b'
  {
    var s := a + "-" + b;
    assert forall i :: 0 <= i < |a| ==> s[i] == a[i];
    assert forall i :: 0 <= i < |a'| ==> s[i] == a'[i];
    assert s[|a|] == '-' && s[|a'|] == '-';
    assert s[..|a|] == a && s[..|a'|] == a';
    assert s[|a| + 1..] == b && s[|a'| + 1..] == b';
  }

  lemma SamePrefix(p: string, x: string, y: string)
    requires p + x == p + y
    ensures x == y
  {
    assert (p + x)[|p|..] == x && (p + y)[|p|..] == y;
  }

  lemma Regroup(p: string, x: string, y: string)
    ensures p + x + "-" + y == p + (x + "-" + y)
  {
  }

  /** Replayed call ids are pairwise distinct over the whole replay. */
  lemma ReplayIdsDiffer(i: nat, j: nat, i': nat, j': nat)
    requires ReplayId(i, j) == ReplayId(i', j')
    ensures i == i' && j == j'
  {
    Regroup("replay-", Dec(i), Dec(j));
    Regroup("replay-", Dec(i'), Dec(j'));
    SamePrefix("replay-", Dec(i) + "-" + Dec(j), Dec(i') + "-" + Dec(j'));
    SplitAtDash(Dec(i), Dec(j), Dec(i'), Dec(j'));
    DecIsInjective(i, i');
    DecIsInjective(j, j');
  }
}

/** How a run of the agent loop ends, told by its chats, and what the attempt reports. */
module Exits {
  import opened Models
  import opened Decimals
  import opened AgentLoop
  import opened Transcript

  function TextOf<S>(w: World<S>, r: ChatResult): string {
    w.strip(if r.text.Some? then r.text.value else "")
  }

  /** The chat's answer lets the loop go on: it calls tools, or it says nothing. */
  predicate GoesOn<S>(w: World<S>, reply: Reply) {
    reply.Chat? && (reply.result.calls != [] || TextOf(w, reply.result) == "")
  }

  predicate AllGoOn<S>(w: World<S>, llm: nat -> Reply, n: nat) {
    forall i :: 0 <= i < n ==> GoesOn(w, llm(i))
  }

  /** How the last chat and the last check explain the exit. */
  predicate Explained<S>(w: World<S>, stops: nat -> Option<Reason>, llm: nat -> Reply, maxSteps: int,
                         st: Loop<S>, exit: Exit)
  {
    var n := |st.asked|;
    match exit
    case Stopped(why) => st.checks > 0 && stops(st.checks - 1) == Some(why) && n <= maxSteps
    case SandboxDied => n > 0 && llm(n - 1).Chat? && llm(n - 1).result.calls != []
    case Raised(exn) => n > 0 && llm(n - 1) == Raise(exn)
    case Returned(status, reason, summary, _) =>
      || (n > 0 && status == Succeeded && reason == None && llm(n - 1).Chat? && llm(n - 1).result.calls == []
          && summary == TextOf(w, llm(n - 1).result) && summary != ""
          && st.messages != [] && st.messages[|st.messages| - 1] == AssistantMsg(summary)
          && st.events != [] && st.events[|st.events| - 1] == MessageEv(summary, true))
      || (n > 0 && status == Failed && reason == Some(ModelError) && llm(n - 1) == LlmError(summary))
      || (status == Failed && reason == Some(MaxSteps) && n == (if maxSteps > 0 then maxSteps else 0)
          && summary == "gave up after " + IntText(maxSteps) + " steps" && AllGoOn(w, llm, n))
  }

  /** Everything before the exit was silent: all chats but the last let the loop go on. */
  predicate Led<S>(w: World<S>, llm: nat -> Reply, st: Loop<S>) {
    AllGoOn(w, llm, if st.asked == [] then 0 else |st.asked| - 1)
  }

  lemma {:induction false} ToolsExit<S>(w: World<S>, stops: nat -> Option<Reason>, calls: seq<ToolRequest>, st: Loop<S>)
    ensures var (st', exit) := CallTools(w, stops, calls, st);
            && st'.asked == st.asked
            && (exit.Some? ==> exit.value == SandboxDied
                               || (exit.value.Stopped? && st'.checks > 0
                                   && stops(st'.checks - 1) == Some(exit.value.why)))
    decreases |calls|
  {
    if calls != [] && stops(st.checks) == None {
      match Invoke(w, calls[0], st.box)
      case None =>
      case Some((box, payload)) =>
        ToolsExit(w, stops, calls[1..], Closed(Opened(st, calls[0]), calls[0], box, payload));
    }
  }

  lemma RespondExit<S>(w: World<S>, stops: nat -> Option<Reason>, llm: nat -> Reply, k: nat, maxSteps: int, st: Loop<S>)
    requires |st.asked| == k + 1 && llm(k).Chat? && k < maxSteps
    ensures var (st', exit) := Respond(w, stops, llm(k).result, st);
            && st'.asked == st.asked
            && if exit.Some? then Explained(w, stops, llm, maxSteps, st', exit.value) else GoesOn(w, llm(k))
  {
    var r := llm(k).result;
    if r.calls != [] {
      ToolsExit(w, stops, r.calls, Announced(Charged(st, r.usage), TextOf(w, r), r.calls));
    }
  }

  lemma TurnExit<S>(w: World<S>, stops: nat -> Option<Reason>, llm: nat -> Reply, k: nat, maxSteps: int, st: Loop<S>)
    requires |st.asked| == k && AllGoOn(w, llm, k) && k < maxSteps
    ensures var (st', exit) := Turn(w, stops, llm(k), st);
            if exit.Some? then Explained(w, stops, llm, maxSteps, st', exit.value) && Led(w, llm, st')
            else |st'.asked| == k + 1 && AllGoOn(w, llm, k + 1)
  {
    if stops(st.checks) == None && llm(k).Chat? {
      RespondExit(w, stops, llm, k, maxSteps, st.(checks := st.checks + 1, asked := st.asked + [st.messages]));
    }
  }

  lemma TurnNext<S>(w: World<S>, stops: nat -> Option<Reason>, llm: nat -> Reply, maxSteps: int, k: nat, st: Loop<S>)
    returns (next: Loop<S>, exit: Option<Exit>)
    requires |st.asked| == k && AllGoOn(w, llm, k) && k < maxSteps
    ensures exit.Some? ==>
              Steps(w, stops, llm, maxSteps, k, st) == (next, exit.value)
              && Explained(w, stops, llm, maxSteps, next, exit.value) && Led(w, llm, next)
    ensures exit == None ==>
              Steps(w, stops, llm, maxSteps, k, st) == Steps(w, stops, llm, maxSteps, k + 1, next)
              && |next.asked| == k + 1 && AllGoOn(w, llm, k + 1)
  {
    TurnExit(w, stops, llm, k, maxSteps, st);
    var turn := Turn(w, stops, llm(k), st);
    next, exit := turn.0, turn.1;
  }

  lemma {:induction false} StepsExit<S>(w: World<S>, stops: nat -> Option<Reason>, llm: nat -> Reply,
                                        maxSteps: int, k: nat, st: Loop<S>)
    requires |st.asked| == k && AllGoOn(w, llm, k) && (k <= maxSteps || k == 0)
    ensures var (st', exit) := Steps(w, stops, llm, maxSteps, k, st);
            Explained(w, stops, llm, maxSteps, st', exit) && Led(w, llm, st')
    decreases maxSteps - k
  {
    if k < maxSteps {
      var next, exit := TurnNext(w, stops, llm, maxSteps, k, st);
      if exit == None {
        StepsExit(w, stops, llm, maxSteps, k + 1, next);
      }
    }
  }

  /** In any run of the loop every chat but the last calls tools or says nothing, and the
      exit is what the last chat, the last check or the step limit makes of it: a success is
      the last answer's own text, which is also the last message and the last event; a model
      error is the model's; the limit is met after exactly `maxSteps` chats; a stop is what
      the last check found. */
  lemma ExitIsExplained<S>(w: World<S>, stops: nat -> Option<Reason>, llm: nat -> Reply,
                           maxSteps: int, prompt: string, box: S)
    ensures var (st, exit) := RunSpec(w, stops, llm, maxSteps, prompt, box);
            && (forall i :: 0 <= i < |st.asked| - 1 ==> GoesOn(w, llm(i)))
            && Explained(w, stops, llm, maxSteps, st, exit)
  {
    StepsExit(w, stops, llm, maxSteps, 0, Begin(prompt, box));
  }

  // ---------- the tools that were called ----------

  /** The calls that the first `n` chats asked for, in order. */
  function Requested(llm: nat -> Reply, n: nat): seq<ToolRequest> {
    if n == 0 then []
    else Requested(llm, n - 1) + if llm(n - 1).Chat? then llm(n - 1).result.calls else []
  }

  function CallsMade(es: seq<AgentEvent>): seq<AgentEvent> {
    if es == [] then []
    else CallsMade(es[..|es| - 1]) + if es[|es| - 1].CallEv? then [es[|es| - 1]] else []
  }

  /** The events announce these calls: same id, name and arguments, in order. */
  predicate AnnouncedAs(made: seq<AgentEvent>, calls: seq<ToolRequest>) {
    && |made| == |calls|
    && forall i :: 0 <= i < |made| ==>
         made[i] == CallEv(calls[i].id, calls[i].name, if calls[i].args.Some? then calls[i].args.value else map[])
  }

  lemma MadeSnoc(es: seq<AgentEvent>, e: AgentEvent)
    ensures CallsMade(es + [e]) == CallsMade(es) + if e.CallEv? then [e] else []
  {
    assert (es + [e])[..|es|] == es;
  }

  lemma MadeCall<S>(st: Loop<S>, c: ToolRequest, box: S, payload: ToolPayload)
    ensures CallsMade(Opened(st, c).events) == CallsMade(st.events) + [CallEv(c.id, c.name, ArgsOf(c))]
    ensures CallsMade(Closed(Opened(st, c), c, box, payload).events) == CallsMade(Opened(st, c).events)
  {
    MadeSnoc(st.events, CallEv(c.id, c.name, ArgsOf(c)));
    MadeSnoc(Opened(st, c).events, ResultEv(c.id, c.name, payload));
  }

  /** `after` announces these calls beyond `before`. */
  predicate Adds(before: seq<AgentEvent>, after: seq<AgentEvent>, calls: seq<ToolRequest>) {
    before <= after && AnnouncedAs(after[|before|..], calls)
  }

  /** The tool loop makes a first part of its calls; all of them if it is not left early. */
  lemma {:induction false} ToolsMade<S>(w: World<S>, stops: nat -> Option<Reason>, calls: seq<ToolRequest>, st: Loop<S>)
    returns (n: nat)
    ensures n <= |calls|
    ensures var (st', exit) := CallTools(w, stops, calls, st);
            && Adds(CallsMade(st.events), CallsMade(st'.events), calls[..n])
            && (exit == None ==> n == |calls|)
    decreases |calls|
  {
    n := 0;
    if calls != [] && stops(st.checks) == None {
      var c := calls[0];
      var made := CallEv(c.id, c.name, ArgsOf(c));
      assert [c] + calls[1..] == calls;
      match Invoke(w, c, st.box)
      case None =>
        MadeCall(st, c, st.box, Failure(""));
        MadeOnce(CallsMade(st.events), made, CallsMade(Opened(st, c).events), c, calls[1..], 0);
        n := 1;
      case Some((box, payload)) =>
        MadeCall(st, c, box, payload);
        var st1 := Closed(Opened(st, c), c, box, payload);
        n := ToolsMade(w, stops, calls[1..], st1);
        var after := CallsMade(CallTools(w, stops, calls[1..], st1).0.events);
        MadeOnce(CallsMade(st.events), made, after, c, calls[1..], n);
        n := n + 1;
    }
  }

  lemma MadeOnce(before: seq<AgentEvent>, e: AgentEvent, after: seq<AgentEvent>, c: ToolRequest,
                 calls: seq<ToolRequest>, m: nat)
    requires e == CallEv(c.id, c.name, ArgsOf(c)) && m <= |calls| && Adds(before + [e], after, calls[..m])
    ensures Adds(before, after, ([c] + calls)[..m + 1])
  {
    var made, asked := after[|before|..], ([c] + calls)[..m + 1];
    assert made[0] == e;
    assert forall i :: 0 < i < |made| ==> made[i] == after[|before| + 1..][i - 1];
    assert forall i :: 0 < i < |asked| ==> asked[i] == calls[..m][i - 1];
  }

  /** The calls announced so far are exactly those of the first `k` chats. */
  predicate MadeAll<S>(llm: nat -> Reply, st: Loop<S>, k: nat) {
    |st.asked| == k && AnnouncedAs(CallsMade(st.events), Requested(llm, k))
  }

  /** They are the first `n` of those of all chats. */
  predicate MadeSome<S>(llm: nat -> Reply, st: Loop<S>, n: int) {
    && 0 <= n <= |Requested(llm, |st.asked|)|
    && AnnouncedAs(CallsMade(st.events), Requested(llm, |st.asked|)[..n])
  }

  /** A first part of them; all of them if the loop returned. */
  ghost predicate MadeOut<S>(llm: nat -> Reply, st: Loop<S>, exit: Exit) {
    exists n :: MadeSome(llm, st, n) && (exit.Returned? ==> n == |Requested(llm, |st.asked|)|)
  }

  lemma AnnouncedJoin(a: seq<AgentEvent>, all: seq<AgentEvent>, calls: seq<ToolRequest>, more: seq<ToolRequest>)
    requires a <= all && AnnouncedAs(a, calls) && AnnouncedAs(all[|a|..], more)
    ensures AnnouncedAs(all, calls + more)
  {
    assert all == a + all[|a|..];
  }

  lemma RespondToolsMade<S>(w: World<S>, stops: nat -> Option<Reason>, llm: nat -> Reply, k: nat, st: Loop<S>)
    returns (n: nat)
    requires |st.asked| == k + 1 && llm(k).Chat? && AnnouncedAs(CallsMade(st.events), Requested(llm, k))
    requires llm(k).result.calls != []
    ensures n <= |llm(k).result.calls|
    ensures var (st', exit) := Respond(w, stops, llm(k).result, st);
            && st'.asked == st.asked && (exit == None ==> n == |llm(k).result.calls|)
            && (exit.Some? ==> !exit.value.Returned?)
            && AnnouncedAs(CallsMade(st'.events), Requested(llm, k) + llm(k).result.calls[..n])
  {
    var r := llm(k).result;
    var text := TextOf(w, r);
    var st1 := Announced(Charged(st, r.usage), text, r.calls);
    MadeSnoc(st.events, MessageEv(text, false));
    ToolsExit(w, stops, r.calls, st1);
    n := ToolsMade(w, stops, r.calls, st1);
    AnnouncedJoin(CallsMade(st.events), CallsMade(CallTools(w, stops, r.calls, st1).0.events),
                  Requested(llm, k), r.calls[..n]);
  }

  lemma SomeOf(all: seq<ToolRequest>, more: seq<ToolRequest>, n: nat)
    requires n <= |more|
    ensures (all + more)[..|all| + n] == all + more[..n]
    ensures n == |more| ==> all + more[..n] == all + more
  {
  }

  lemma RespondMade<S>(w: World<S>, stops: nat -> Option<Reason>, llm: nat -> Reply, k: nat, st: Loop<S>)
    requires |st.asked| == k + 1 && llm(k).Chat? && AnnouncedAs(CallsMade(st.events), Requested(llm, k))
    ensures var (st', exit) := Respond(w, stops, llm(k).result, st);
            st'.asked == st.asked
            && if exit == None then MadeAll(llm, st', k + 1) else MadeOut(llm, st', exit.value)
  {
    var r := llm(k).result;
    if r.calls != [] {
      var n := RespondToolsMade(w, stops, llm, k, st);
      SomeOf(Requested(llm, k), r.calls, n);
      assert MadeSome(llm, Respond(w, stops, r, st).0, |Requested(llm, k)| + n);
    } else {
      MadeSnoc(st.events, MessageEv(TextOf(w, r), true));
      assert Requested(llm, k + 1) == Requested(llm, k);
      var (st', exit) := Respond(w, stops, r, st);
      if exit.Some? {
        AllIsOut(llm, st', exit.value);
      }
    }
  }

  lemma AllIsOut<S>(llm: nat -> Reply, st: Loop<S>, exit: Exit)
    requires AnnouncedAs(CallsMade(st.events), Requested(llm, |st.asked|))
    ensures MadeOut(llm, st, exit)
  {
    var all := Requested(llm, |st.asked|);
    assert all[..|all|] == all;
    assert MadeSome(llm, st, |all|);
  }

  lemma TurnMade<S>(w: World<S>, stops: nat -> Option<Reason>, llm: nat -> Reply, maxSteps: int, k: nat, st: Loop<S>)
    returns (next: Loop<S>, exit: Option<Exit>)
    requires MadeAll(llm, st, k) && k < maxSteps
    ensures exit.Some? ==>
              Steps(w, stops, llm, maxSteps, k, st) == (next, exit.value) && MadeOut(llm, next, exit.value)
    ensures exit == None ==>
              Steps(w, stops, llm, maxSteps, k, st) == Steps(w, stops, llm, maxSteps, k + 1, next)
              && MadeAll(llm, next, k + 1)
  {
    var turn := Turn(w, stops, llm(k), st);
    next, exit := turn.0, turn.1;
    if stops(st.checks) == None && llm(k).Chat? {
      RespondMade(w, stops, llm, k, st.(checks := st.checks + 1, asked := st.asked + [st.messages]));
    } else {
      assert Requested(llm, k + 1) ==
             if llm(k).Chat? then Requested(llm, k) + llm(k).result.calls else Requested(llm, k);
      AllIsOut(llm, next, exit.value);
    }
  }

  lemma {:induction false} StepsMade<S>(w: World<S>, stops: nat -> Option<Reason>, llm: nat -> Reply,
                                        maxSteps: int, k: nat, st: Loop<S>)
    requires MadeAll(llm, st, k)
    ensures var (st', exit) := Steps(w, stops, llm, maxSteps, k, st); MadeOut(llm, st', exit)
    decreases maxSteps - k
  {
    if k < maxSteps {
      var next, exit := TurnMade(w, stops, llm, maxSteps, k, st);
      if exit == None {
        StepsMade(w, stops, llm, maxSteps, k + 1, next);
      }
    } else {
      AllIsOut(llm, st, Steps(w, stops, llm, maxSteps, k, st).1);
    }
  }

  /** The tool calls that a run announces are, in order, a first part of those that its
      chats asked for, with their ids, names and arguments; all of them if it returns. */
  lemma CallsAreRequested<S>(w: World<S>, stops: nat -> Option<Reason>, llm: nat -> Reply,
                             maxSteps: int, prompt: string, box: S)
    ensures var (st, exit) := RunSpec(w, stops, llm, maxSteps, prompt, box);
            exists n :: 0 <= n <= |Requested(llm, |st.asked|)|
                        && AnnouncedAs(CallsMade(st.events), Requested(llm, |st.asked|)[..n])
                        && (exit.Returned? ==> n == |Requested(llm, |st.asked|)|)
  {
    StepsMade(w, stops, llm, maxSteps, 0, Begin(prompt, box));
    var (st, exit) := RunSpec(w, stops, llm, maxSteps, prompt, box);
    var n :| MadeSome(llm, st, n) && (exit.Returned? ==> n == |Requested(llm, |st.asked|)|);
  }

  // ---------- what became of each call ----------

  // ---------- what was said ----------

  function MessagesMade(es: seq<AgentEvent>): seq<AgentEvent> {
    if es == [] then []
    else MessagesMade(es[..|es| - 1]) + if es[|es| - 1].MessageEv? then [es[|es| - 1]] else []
  }

  function SpokenBy<S>(w: World<S>, r: ChatResult): seq<AgentEvent> {
    if TextOf(w, r) == "" then [] else [MessageEv(TextOf(w, r), r.calls == [])]
  }

  /** The texts of the first `n` chats that are not empty, final exactly if they call nothing. */
  function Spoken<S>(w: World<S>, llm: nat -> Reply, n: nat): seq<AgentEvent> {
    if n == 0 then []
    else Spoken(w, llm, n - 1) + if llm(n - 1).Chat? then SpokenBy(w, llm(n - 1).result) else []
  }

  lemma SaidSnoc(es: seq<AgentEvent>, e: AgentEvent)
    ensures MessagesMade(es + [e]) == MessagesMade(es) + if e.MessageEv? then [e] else []
  {
    assert (es + [e])[..|es|] == es;
  }

  lemma {:induction false} ToolsSayNothing<S>(w: World<S>, stops: nat -> Option<Reason>, calls: seq<ToolRequest>,
                                              st: Loop<S>)
    ensures MessagesMade(CallTools(w, stops, calls, st).0.events) == MessagesMade(st.events)
    ensures CallTools(w, stops, calls, st).0.asked == st.asked
    decreases |calls|
  {
    if calls != [] && stops(st.checks) == None {
      var c := calls[0];
      SaidSnoc(st.events, CallEv(c.id, c.name, ArgsOf(c)));
      match Invoke(w, c, st.box)
      case None =>
      case Some((box, payload)) =>
        SaidSnoc(Opened(st, c).events, ResultEv(c.id, c.name, payload));
        ToolsSayNothing(w, stops, calls[1..], Closed(Opened(st, c), c, box, payload));
    }
  }

  predicate SaidAll<S>(w: World<S>, llm: nat -> Reply, st: Loop<S>) {
    MessagesMade(st.events) == Spoken(w, llm, |st.asked|)
  }

  lemma RespondSays<S>(w: World<S>, stops: nat -> Option<Reason>, r: ChatResult, st: Loop<S>)
    ensures var st' := Respond(w, stops, r, st).0;
            && MessagesMade(st'.events) == MessagesMade(st.events) + SpokenBy(w, r)
            && st'.asked == st.asked
  {
    var text := TextOf(w, r);
    SaidSnoc(st.events, MessageEv(text, r.calls == []));
    if r.calls != [] {
      ToolsSayNothing(w, stops, r.calls, Announced(Charged(st, r.usage), text, r.calls));
    }
  }

  lemma TurnSays<S>(w: World<S>, stops: nat -> Option<Reason>, llm: nat -> Reply, k: nat, st: Loop<S>)
    requires |st.asked| == k && SaidAll(w, llm, st)
    ensures var (st', exit) := Turn(w, stops, llm(k), st);
            SaidAll(w, llm, st') && (exit == None ==> |st'.asked| == k + 1)
  {
    if stops(st.checks) == None {
      var st1 := st.(checks := st.checks + 1, asked := st.asked + [st.messages]);
      if llm(k).Chat? {
        RespondSays(w, stops, llm(k).result, st1);
      } else {
        assert Spoken(w, llm, k + 1) == Spoken(w, llm, k);
      }
    }
  }

  lemma {:induction false} StepsSay<S>(w: World<S>, stops: nat -> Option<Reason>, llm: nat -> Reply,
                                       maxSteps: int, k: nat, st: Loop<S>)
    requires |st.asked| == k && SaidAll(w, llm, st)
    ensures SaidAll(w, llm, Steps(w, stops, llm, maxSteps, k, st).0)
    decreases maxSteps - k
  {
    if k < maxSteps {
      TurnSays(w, stops, llm, k, st);
      var turn := Turn(w, stops, llm(k), st);
      if turn.1 == None {
        StepsSay(w, stops, llm, maxSteps, k + 1, turn.0);
      }
    }
  }

  /** The messages that a run emits are, in order, exactly the stripped texts of its chats
      that are not empty; one is marked final exactly if its chat calls no tool. */
  lemma TextsAreEmitted<S>(w: World<S>, stops: nat -> Option<Reason>, llm: nat -> Reply,
                           maxSteps: int, prompt: string, box: S)
    ensures var st := RunSpec(w, stops, llm, maxSteps, prompt, box).0;
            MessagesMade(st.events) == Spoken(w, llm, |st.asked|)
  {
    StepsSay(w, stops, llm, maxSteps, 0, Begin(prompt, box));
  }

  /** A tool ran only if the call was well formed and names a tool; otherwise, and if the
      tool rejected its arguments, the sandbox is as the tool left it and the payload is a
      failure without an exit code. */
  lemma OnlyGoodCallsRun<S>(w: World<S>, c: ToolRequest, box: S)
    ensures var good := !Truthy(c.parseError) && c.name in {"bash", "read_file", "write_file", "list_dir"};
            var args := if c.args.Some? then c.args.value else map[];
            match Invoke(w, c, box)
            case None => good && w.tool(box, c.name, args).Died?
            case Some((box', payload)) =>
              && (!good ==> box' == box && !payload.ok && payload.exitCode == None)
              && (good && w.tool(box, c.name, args).Ran? ==>
                    box' == w.tool(box, c.name, args).box && payload == w.tool(box, c.name, args).payload)
              && (good && w.tool(box, c.name, args).BadArguments? ==>
                    box' == w.tool(box, c.name, args).box && !payload.ok && payload.exitCode == None)
  {
  }

  // ---------- what the attempt reports ----------

  /** The summary of an attempt whose loop did not return. */
  function Verdict(stop: Option<Reason>, oomKilled: bool): string {
    if stop == Some(UserCancelled) then "stopped: cancelled"
    else if stop == Some(TimedOut) then "stopped: timeout"
    else if oomKilled then "sandbox out of memory"
    else "sandbox died unexpectedly"
  }

  /** Read backwards, from the report to its cause. */
  lemma ReasonTellsCause(exit: Exit, stop: Option<Reason>, oomKilled: bool, artifacts: seq<string>)
    requires exit.Returned? ==>
               (exit.status == Succeeded && exit.reason == None)
               || (exit.status == Failed && (exit.reason == Some(ModelError) || exit.reason == Some(MaxSteps)))
    requires stop == None || stop == Some(UserCancelled) || stop == Some(TimedOut)
    requires exit.Stopped? ==> stop == Some(exit.why)
    ensures var r := ReportOf(exit, stop, oomKilled, artifacts);
            && (r == None <==> exit.Raised?)
            && (r.Some? ==>
                  && (r.value.reason == Some(SandboxOom) <==> exit.SandboxDied? && stop == None && oomKilled)
                  && (r.value.reason == Some(ToolError) <==> exit.SandboxDied? && stop == None && !oomKilled)
                  && (r.value.reason == Some(UserCancelled) <==> !exit.Returned? && stop == Some(UserCancelled))
                  && (r.value.status == Cancelled <==> !exit.Returned? && stop == Some(UserCancelled))
                  && (r.value.reason == Some(TimedOut) <==> !exit.Returned? && stop == Some(TimedOut))
                  && (!exit.Returned? ==> r.value.summary == Some(Verdict(stop, oomKilled)))
                  && (r.value.usage.Some? <==> exit.Returned?)
                  && (exit.Returned? ==> r.value.status == exit.status && r.value.reason == exit.reason
                                         && r.value.summary == Some(exit.summary) && r.value.usage == Some(exit.usage))
                  && r.value.artifacts == Some(artifacts))
  {
    assert "stopped: " + ReasonName(UserCancelled) == "stopped: cancelled";
    assert "stopped: " + ReasonName(TimedOut) == "stopped: timeout";
  }
}

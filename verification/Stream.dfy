/** api/main.py, `_stream`: one connection to a task's event stream. The server
    subscribes, reads the history, and then forwards live messages, dropping every
    message whose id is not above the largest id it has sent. */
module Stream {
  import opened Models
  import opened Database
  import opened History
  import opened System
  import opened SystemProof
  import opened Guarantees

  // ---------- what a connection sends ----------

  datatype Chunk = Frame(e: Event) | KeepAlive

  function Frames(out: seq<Chunk>): seq<Event> {
    if out == [] then [] else
      var last := out[|out| - 1];
      Frames(out[..|out| - 1]) + if last.Frame? then [last.e] else []
  }

  function Messages(inbox: seq<Option<Event>>): seq<Event> {
    if inbox == [] then [] else
      if inbox[0].Some? then [inbox[0].value] + Messages(inbox[1..]) else Messages(inbox[1..])
  }

  predicate HasEnd(es: seq<Event>) {
    exists i :: 0 <= i < |es| && Closes(es[i])
  }

  function LastId(es: seq<Event>, after: int): int {
    if es == [] then after else es[|es| - 1].id
  }

  function Live(msgs: seq<Event>, seen: int): seq<Event> {
    if msgs == [] then []
    else if msgs[0].id <= seen then Live(msgs[1..], seen)
    else if Closes(msgs[0]) then [msgs[0]]
    else [msgs[0]] + Live(msgs[1..], msgs[0].id)
  }

  function Sent(after: int, history: seq<Event>, msgs: seq<Event>): seq<Event> {
    if HasEnd(history) then history else history + Live(msgs, LastId(history, after))
  }

  lemma FramesSnoc(out: seq<Chunk>, c: Chunk)
    ensures Frames(out + [c]) == if c.Frame? then Frames(out) + [c.e] else Frames(out)
  {
    assert (out + [c])[..|out|] == out;
  }

  /** What the live loop sends, chunk by chunk: one keepalive for each poll that timed out,
      one frame for each message above all that was sent, up to the first terminal one. */
  function LiveChunks(inbox: seq<Option<Event>>, seen: int): seq<Chunk> {
    if inbox == [] then []
    else
      match inbox[0]
      case None => [KeepAlive] + LiveChunks(inbox[1..], seen)
      case Some(e) =>
        if e.id <= seen then LiveChunks(inbox[1..], seen)
        else if Closes(e) then [Frame(e)]
        else [Frame(e)] + LiveChunks(inbox[1..], e.id)
  }

  function AllFrames(es: seq<Event>): seq<Chunk> {
    seq(|es|, i requires 0 <= i < |es| => Frame(es[i]))
  }

  lemma {:induction false} FramesJoin(a: seq<Chunk>, b: seq<Chunk>)
    ensures Frames(a + b) == Frames(a) + Frames(b)
    decreases |b|
  {
    if b == [] {
      assert a + b == a;
    } else {
      FramesJoin(a, b[..|b| - 1]);
      assert (a + b)[..|a + b| - 1] == a + b[..|b| - 1];
      Associative(Frames(a), Frames(b[..|b| - 1]), if b[|b| - 1].Frame? then [b[|b| - 1].e] else []);
    }
  }

  lemma FramesOne(c: Chunk)
    ensures Frames([c]) == if c.Frame? then [c.e] else []
  {
    assert [c][..0] == [];
    assert [] + (if c.Frame? then [c.e] else []) == if c.Frame? then [c.e] else [];
  }

  lemma {:induction false} FramesOfHistory(es: seq<Event>)
    ensures Frames(AllFrames(es)) == es
    decreases |es|
  {
    if es != [] {
      FramesOfHistory(es[..|es| - 1]);
      assert AllFrames(es)[..|es| - 1] == AllFrames(es[..|es| - 1]);
    }
  }

  /** The frames among them are the messages that get through. */
  lemma {:induction false} FramesOfLive(inbox: seq<Option<Event>>, seen: int)
    ensures Frames(LiveChunks(inbox, seen)) == Live(Messages(inbox), seen)
    decreases |inbox|
  {
    if inbox != [] {
      var rest := Messages(inbox[1..]);
      match inbox[0]
      case None =>
        FramesOfLive(inbox[1..], seen);
        FramesJoin([KeepAlive], LiveChunks(inbox[1..], seen));
        FramesOne(KeepAlive);
      case Some(e) =>
        assert ([e] + rest)[1..] == rest;
        FramesOne(Frame(e));
        if e.id <= seen {
          FramesOfLive(inbox[1..], seen);
        } else if !Closes(e) {
          FramesOfLive(inbox[1..], e.id);
          FramesJoin([Frame(e)], LiveChunks(inbox[1..], e.id));
        }
    }
  }

  /** The loop started in the middle: after `inbox` it goes on from the last id it sent, and
      after a terminal event not at all. */
  lemma {:induction false} LiveResumes(inbox: seq<Option<Event>>, more: seq<Option<Event>>, seen: int)
    ensures LiveChunks(inbox + more, seen) ==
            var sent := Live(Messages(inbox), seen);
            LiveChunks(inbox, seen) + if HasEnd(sent) then [] else LiveChunks(more, LastId(sent, seen))
    decreases |inbox|
  {
    if inbox == [] {
      assert inbox + more == more;
    } else {
      assert (inbox + more)[0] == inbox[0] && (inbox + more)[1..] == inbox[1..] + more;
      match inbox[0]
      case None => LiveResumes(inbox[1..], more, seen);
      case Some(e) =>
        var rest := Messages(inbox[1..]);
        assert Messages(inbox)[1..] == rest;
        if e.id <= seen {
          LiveResumes(inbox[1..], more, seen);
        } else if Closes(e) {
          assert HasEnd([e]) by { assert Closes([e][0]); }
        } else {
          LiveResumes(inbox[1..], more, e.id);
          NoEndFirst(e, Live(rest, e.id));
        }
    }
  }

  lemma NoEndFirst(e: Event, es: seq<Event>)
    requires !Closes(e)
    ensures HasEnd([e] + es) <==> HasEnd(es)
  {
    if HasEnd(es) {
      var i :| 0 <= i < |es| && Closes(es[i]);
      assert ([e] + es)[i + 1] == es[i];
    }
  }

  /** Poll by poll: while no terminal event has been sent, a poll that timed out adds one
      keepalive, and one that brought a message adds its frame exactly if its id is above
      all that was sent; afterwards nothing is added. */
  lemma EachPollSends(inbox: seq<Option<Event>>, seen: int, k: nat)
    requires k < |inbox|
    ensures var sent := Live(Messages(inbox[..k]), seen);
            LiveChunks(inbox[..k + 1], seen) == LiveChunks(inbox[..k], seen) +
              if HasEnd(sent) then []
              else if inbox[k] == None then [KeepAlive]
              else if inbox[k].value.id > LastId(sent, seen) then [Frame(inbox[k].value)] else []
  {
    assert inbox[..k + 1] == inbox[..k] + [inbox[k]];
    LiveResumes(inbox[..k], [inbox[k]], seen);
    assert forall after :: LiveChunks([], after) == [];
    assert [inbox[k]][1..] == [];
  }

  lemma NoEndSnoc(es: seq<Event>, e: Event)
    ensures HasEnd(es + [e]) <==> HasEnd(es) || Closes(e)
  {
    assert (es + [e])[|es|] == e;
    assert forall i :: 0 <= i < |es| ==> (es + [e])[i] == es[i];
  }

  /** The live half. `inbox` is what `get_message` returns, call by call, until the
      connection is cut; `None` is a poll that timed out. */
  method ForwardLive(after: int, inbox: seq<Option<Event>>) returns (out: seq<Chunk>, closed: bool)
    ensures out == LiveChunks(inbox, after)
    ensures closed <==> HasEnd(Live(Messages(inbox), after))
  {
    FramesOfLive(inbox, after);
    out := [];
    var seen := after;
    for k := 0 to |inbox|
      invariant out + LiveChunks(inbox[k..], seen) == LiveChunks(inbox, after) && !HasEnd(Frames(out))
    {
      var msg := inbox[k];
      assert inbox[k..][0] == msg && inbox[k..][1..] == inbox[k + 1..];
      if msg.None? {
        FramesSnoc(out, KeepAlive);
        Associative(out, [KeepAlive], LiveChunks(inbox[k + 1..], seen));
        out := out + [KeepAlive];
      } else if msg.value.id > seen {
        FramesSnoc(out, Frame(msg.value));
        NoEndSnoc(Frames(out), msg.value);
        Associative(out, [Frame(msg.value)], LiveChunks(inbox[k + 1..], msg.value.id));
        seen := msg.value.id;
        out := out + [Frame(msg.value)];
        if Closes(msg.value) {
          return out, true;
        }
      }
    }
    assert out + [] == out;
    closed := false;
  }

  lemma HasEndOfJoin(a: seq<Event>, b: seq<Event>)
    ensures HasEnd(a + b) <==> HasEnd(a) || HasEnd(b)
  {
    if HasEnd(a) {
      var i :| 0 <= i < |a| && Closes(a[i]);
      assert Closes((a + b)[i]);
    }
    if HasEnd(b) {
      var i :| 0 <= i < |b| && Closes(b[i]);
      assert Closes((a + b)[|a| + i]);
    }
  }

  method StreamEvents(after: int, history: seq<Event>, inbox: seq<Option<Event>>)
    returns (out: seq<Chunk>, closed: bool)
    ensures out == AllFrames(history) + if HasEnd(history) then [] else LiveChunks(inbox, LastId(history, after))
    ensures Frames(out) == Sent(after, history, Messages(inbox))
    ensures closed <==> HasEnd(Sent(after, history, Messages(inbox)))
  {
    out := [];
    var seen := after;
    closed := false;
    for i := 0 to |history|
      invariant out == AllFrames(history[..i])
      invariant seen == LastId(history[..i], after)
      invariant closed <==> HasEnd(history[..i])
    {
      assert history[..i + 1] == history[..i] + [history[i]];
      seen := history[i].id;
      closed := closed || Closes(history[i]);
      NoEndSnoc(history[..i], history[i]);
      out := out + [Frame(history[i])];
    }
    assert history[..|history|] == history;
    FramesOfHistory(history);
    if closed {
      assert out + [] == out;
    } else {
      FramesOfLive(inbox, seen);
      FramesJoin(out, LiveChunks(inbox, seen));
      HasEndOfJoin(history, Live(Messages(inbox), seen));
      var live;
      live, closed := ForwardLive(seen, inbox);
      out := out + live;
    }
  }

  // ---------- which live messages get through ----------

  /** The message is above everything sent or received before it. */
  predicate IsRecord(msgs: seq<Event>, seen: int, k: nat)
    requires k < |msgs|
  {
    seen < msgs[k].id && forall i :: 0 <= i < k ==> msgs[i].id < msgs[k].id
  }

  predicate GetsThrough(msgs: seq<Event>, seen: int, k: nat)
    requires k < |msgs|
  {
    IsRecord(msgs, seen, k) && forall i :: 0 <= i < k && IsRecord(msgs, seen, i) ==> !Closes(msgs[i])
  }

  lemma RecordShift(msgs: seq<Event>, seen: int, k: nat)
    requires 0 < k < |msgs|
    ensures IsRecord(msgs, seen, k) <==>
            IsRecord(msgs[1..], if msgs[0].id > seen then msgs[0].id else seen, k - 1)
  {
    var rest := msgs[1..];
    if IsRecord(rest, if msgs[0].id > seen then msgs[0].id else seen, k - 1) {
      forall i | 0 <= i < k ensures msgs[i].id < msgs[k].id {
        if i > 0 { assert rest[i - 1] == msgs[i]; }
      }
    }
  }

  lemma ThroughShift(msgs: seq<Event>, seen: int, k: nat)
    requires 0 < k < |msgs| && !(IsRecord(msgs, seen, 0) && Closes(msgs[0]))
    ensures GetsThrough(msgs, seen, k) <==>
            GetsThrough(msgs[1..], if msgs[0].id > seen then msgs[0].id else seen, k - 1)
  {
    var rest, seen' := msgs[1..], if msgs[0].id > seen then msgs[0].id else seen;
    forall i | 0 < i <= k ensures IsRecord(msgs, seen, i) <==> IsRecord(rest, seen', i - 1) {
      RecordShift(msgs, seen, i);
    }
    if GetsThrough(msgs, seen, k) {
      forall i | 0 <= i < k - 1 && IsRecord(rest, seen', i) ensures !Closes(rest[i]) {
        assert IsRecord(msgs, seen, i + 1);
      }
    }
  }

  /** Exactly which messages the live loop delivers: those above all earlier ones, up to
      the first such message that ends the job. Anything published late is lost. */
  lemma {:induction false} DeliveredIff(msgs: seq<Event>, seen: int, e: Event)
    ensures e in Live(msgs, seen) <==> exists k :: 0 <= k < |msgs| && msgs[k] == e && GetsThrough(msgs, seen, k)
    decreases |msgs|
  {
    if msgs != [] {
      var rest, seen' := msgs[1..], if msgs[0].id > seen then msgs[0].id else seen;
      if IsRecord(msgs, seen, 0) && Closes(msgs[0]) {
        forall k | 0 < k < |msgs| ensures !GetsThrough(msgs, seen, k) {
        }
        assert GetsThrough(msgs, seen, 0);
      } else {
        DeliveredIff(rest, seen', e);
        forall k | 0 < k < |msgs| ensures GetsThrough(msgs, seen, k) <==> GetsThrough(rest, seen', k - 1) {
          ThroughShift(msgs, seen, k);
        }
        if e in Live(rest, seen') {
          var k :| 0 <= k < |rest| && rest[k] == e && GetsThrough(rest, seen', k);
          assert msgs[k + 1] == e && GetsThrough(msgs, seen, k + 1);
        }
        if e in Live(msgs, seen) && e !in Live(rest, seen') {
          assert GetsThrough(msgs, seen, 0);
        }
      }
    }
  }

  predicate Increasing(es: seq<Event>) {
    forall i, j :: 0 <= i < j < |es| ==> es[i].id < es[j].id
  }

  // ---------- the persisted stream of a task ----------

  /** The events of one task: on its channel, or in the log. */
  function OfTask(es: seq<Event>, t: TaskId): seq<Event> {
    if es == [] then [] else
      var e := es[|es| - 1];
      if e.taskId == t then OfTask(es[..|es| - 1], t) + [e] else OfTask(es[..|es| - 1], t)
  }

  function Above(es: seq<Event>, after: int): seq<Event> {
    if es == [] then [] else
      var e := es[|es| - 1];
      if e.id > after then Above(es[..|es| - 1], after) + [e] else Above(es[..|es| - 1], after)
  }

  /** Up to and including the first terminal event: what a client is owed. */
  function UpToEnd(es: seq<Event>): seq<Event> {
    if es == [] then [] else if Closes(es[0]) then [es[0]] else [es[0]] + UpToEnd(es[1..])
  }

  lemma {:induction false} OfTaskJoin(a: seq<Event>, b: seq<Event>, t: TaskId)
    ensures OfTask(a + b, t) == OfTask(a, t) + OfTask(b, t)
    decreases |b|
  {
    if b == [] {
      assert a + b == a;
    } else {
      OfTaskJoin(a, b[..|b| - 1], t);
      assert (a + b)[..|a + b| - 1] == a + b[..|b| - 1];
      Associative(OfTask(a, t), OfTask(b[..|b| - 1], t), [b[|b| - 1]]);
    }
  }

  lemma {:induction false} AboveJoin(a: seq<Event>, b: seq<Event>, after: int)
    ensures Above(a + b, after) == Above(a, after) + Above(b, after)
    decreases |b|
  {
    if b == [] {
      assert a + b == a;
    } else {
      AboveJoin(a, b[..|b| - 1], after);
      assert (a + b)[..|a + b| - 1] == a + b[..|b| - 1];
      Associative(Above(a, after), Above(b[..|b| - 1], after), [b[|b| - 1]]);
    }
  }

  lemma {:induction false} HistoryIsAbove(log: seq<Event>, t: TaskId, after: int)
    ensures EventsAfter(log, t, after) == Above(OfTask(log, t), after)
    decreases |log|
  {
    if log != [] {
      var e := log[|log| - 1];
      HistoryIsAbove(log[..|log| - 1], t, after);
      if e.taskId == t {
        assert (OfTask(log[..|log| - 1], t) + [e])[..|OfTask(log[..|log| - 1], t)|] == OfTask(log[..|log| - 1], t);
      }
    }
  }

  /** The events of a task come from the log, in increasing id order. */
  lemma {:induction false} OfTaskOrdered(log: seq<Event>, t: TaskId)
    requires Numbered(log)
    ensures Increasing(OfTask(log, t))
    ensures forall i :: 0 <= i < |OfTask(log, t)| ==>
              var e := OfTask(log, t)[i]; e.taskId == t && 1 <= e.id <= |log| && log[e.id - 1] == e
    decreases |log|
  {
    if log != [] {
      OfTaskOrdered(log[..|log| - 1], t);
    }
  }

  lemma {:induction false} AllAbove(es: seq<Event>, after: int)
    requires forall i :: 0 <= i < |es| ==> es[i].id > after
    ensures Above(es, after) == es
    decreases |es|
  {
    if es != [] {
      AllAbove(es[..|es| - 1], after);
      assert es == es[..|es| - 1] + [es[|es| - 1]];
    }
  }

  lemma {:induction false} NoneAbove(es: seq<Event>, after: int)
    requires forall i :: 0 <= i < |es| ==> es[i].id <= after
    ensures Above(es, after) == []
    decreases |es|
  {
    if es != [] {
      NoneAbove(es[..|es| - 1], after);
    }
  }

  lemma {:induction false} AboveFrom(es: seq<Event>, after: int)
    ensures forall e :: e in Above(es, after) <==> e in es && e.id > after
    decreases |es|
  {
    if es != [] {
      AboveFrom(es[..|es| - 1], after);
      assert es == es[..|es| - 1] + [es[|es| - 1]];
    }
  }

  lemma IncreasingSnoc(es: seq<Event>, e: Event)
    requires Increasing(es) && forall i :: 0 <= i < |es| ==> es[i].id < e.id
    ensures Increasing(es + [e])
  {
  }

  lemma {:induction false} AboveOrdered(es: seq<Event>, after: int)
    requires Increasing(es)
    ensures Increasing(Above(es, after))
    ensures forall i :: 0 <= i < |Above(es, after)| ==> after < Above(es, after)[i].id
    ensures es != [] ==> forall i :: 0 <= i < |Above(es, after)| ==> Above(es, after)[i].id <= es[|es| - 1].id
    decreases |es|
  {
    if es != [] {
      var init, e := es[..|es| - 1], es[|es| - 1];
      AboveOrdered(init, after);
      assert forall i :: 0 <= i < |Above(init, after)| ==> Above(init, after)[i].id < e.id;
      if e.id > after {
        IncreasingSnoc(Above(init, after), e);
      }
    }
  }

  /** Filtering keeps a subsequence; of increasing events it keeps a suffix. */
  lemma AboveKeeps(es: seq<Event>, after: int)
    requires Increasing(es)
    ensures Increasing(Above(es, after))
    ensures forall e :: e in Above(es, after) <==> e in es && e.id > after
    ensures es != [] && es[|es| - 1].id > after ==>
              Above(es, after) != [] && LastId(Above(es, after), after) == es[|es| - 1].id
    ensures es != [] && es[|es| - 1].id <= after ==> Above(es, after) == []
  {
    AboveFrom(es, after);
    AboveOrdered(es, after);
    if es != [] && es[|es| - 1].id <= after {
      NoneAbove(es, after);
    }
  }

  lemma AboveCons(es: seq<Event>, after: int)
    requires es != []
    ensures Above(es, after) == if es[0].id > after then [es[0]] + Above(es[1..], after) else Above(es[1..], after)
  {
    assert es == [es[0]] + es[1..];
    AboveJoin([es[0]], es[1..], after);
    assert Above([es[0]], after) == if es[0].id > after then [es[0]] else [];
  }

  lemma {:induction false} LiveIsFilter(msgs: seq<Event>, seen: int)
    requires Increasing(msgs)
    ensures Live(msgs, seen) == UpToEnd(Above(msgs, seen))
    decreases |msgs|
  {
    if msgs != [] {
      AboveCons(msgs, seen);
      if msgs[0].id <= seen {
        LiveIsFilter(msgs[1..], seen);
      } else {
        LiveIsFilter(msgs[1..], msgs[0].id);
        AllAbove(msgs[1..], seen);
        AllAbove(msgs[1..], msgs[0].id);
      }
    }
  }

  lemma HasEndCons(a: seq<Event>)
    requires a != []
    ensures HasEnd(a) <==> Closes(a[0]) || HasEnd(a[1..])
  {
    if HasEnd(a[1..]) {
      var i :| 0 <= i < |a[1..]| && Closes(a[1..][i]);
      assert Closes(a[i + 1]);
    }
    if HasEnd(a) && !Closes(a[0]) {
      var i :| 0 <= i < |a| && Closes(a[i]);
      assert Closes(a[1..][i - 1]);
    }
  }

  lemma {:induction false} UpToEndJoin(a: seq<Event>, b: seq<Event>)
    ensures HasEnd(a) ==> UpToEnd(a + b) == UpToEnd(a)
    ensures !HasEnd(a) ==> UpToEnd(a) == a && UpToEnd(a + b) == a + UpToEnd(b)
    decreases |a|
  {
    if a == [] {
      assert a + b == b && a + UpToEnd(b) == UpToEnd(b);
    } else {
      HasEndCons(a);
      UpToEndJoin(a[1..], b);
      assert (a + b)[0] == a[0] && (a + b)[1..] == a[1..] + b;
      if !HasEnd(a) {
        assert a == [a[0]] + a[1..];
        Associative([a[0]], a[1..], UpToEnd(b));
      }
    }
  }

  lemma {:induction false} UpToEndTwice(a: seq<Event>)
    ensures UpToEnd(UpToEnd(a)) == UpToEnd(a)
    decreases |a|
  {
    if a != [] {
      UpToEndTwice(a[1..]);
      assert ([a[0]] + UpToEnd(a[1..]))[1..] == UpToEnd(a[1..]);
    }
  }

  // ---------- from history to live without a gap ----------

  /** When a connection did what: it subscribed after `subscribed` messages had been
      published, read a log of `snapshot` events, and was cut after `cut` messages. */
  datatype View = View(subscribed: nat, snapshot: nat, cut: nat)

  /** The order of the steps in `_stream` and `emit`: subscribe, then read; append, then
      publish. So what was published before the subscription is in the snapshot. */
  predicate ViewOk(sh: Shared, v: View) {
    && v.subscribed <= v.cut <= |sh.published| && v.snapshot <= |sh.db.log|
    && forall i :: 0 <= i < v.subscribed ==> sh.published[i].id <= v.snapshot
  }

  function Delivered(sh: Shared, t: TaskId, after: int, v: View): seq<Event>
    requires ViewOk(sh, v)
  {
    Sent(after, EventsAfter(sh.db.log[..v.snapshot], t, after), OfTask(sh.published[v.subscribed..v.cut], t))
  }

  predicate AllLogged(sh: Shared) {
    forall i :: 0 <= i < |sh.published| ==> Logged(sh.db.log, sh.published[i])
  }

  /** The assumption under which the live stream is complete: the events of the task were
      published in id order with none skipped. */
  predicate InOrder(sh: Shared, t: TaskId) {
    OfTask(sh.published, t) <= OfTask(sh.db.log, t)
  }

  /** The part of the task's stream that exists by the time the connection is cut. */
  function Reach(sh: Shared, t: TaskId, v: View): nat
    requires ViewOk(sh, v)
  {
    var read, heard := |OfTask(sh.db.log[..v.snapshot], t)|, |OfTask(sh.published[..v.cut], t)|;
    if read >= heard then read else heard
  }

  lemma OfTaskPrefix(es: seq<Event>, n: nat, t: TaskId)
    requires n <= |es|
    ensures |OfTask(es[..n], t)| <= |OfTask(es, t)|
    ensures OfTask(es, t)[..|OfTask(es[..n], t)|] == OfTask(es[..n], t)
    ensures OfTask(es, t)[|OfTask(es[..n], t)|..] == OfTask(es[n..], t)
  {
    assert es == es[..n] + es[n..];
    OfTaskJoin(es[..n], es[n..], t);
  }

  lemma Between(stream: seq<Event>, heard: seq<Event>, p: nat, before: seq<Event>, between: seq<Event>)
    requires heard <= stream && p <= |heard| && heard[..p] == before && heard[p..] == between
    ensures stream[p..|heard|] == between && stream[..p] == before
  {
    assert stream[..|heard|] == heard;
    assert stream[..|heard|][p..] == stream[p..|heard|] && stream[..|heard|][..p] == stream[..p];
  }

  /** What was published, as a stretch of the task's persisted stream. */
  lemma HeardPart(sh: Shared, t: TaskId, v: View) returns (p: nat, q: nat)
    requires ViewOk(sh, v) && InOrder(sh, t)
    ensures var stream := OfTask(sh.db.log, t);
            && p <= q <= |stream|
            && OfTask(sh.published[v.subscribed..v.cut], t) == stream[p..q]
            && OfTask(sh.published[..v.subscribed], t) == stream[..p]
            && q == |OfTask(sh.published[..v.cut], t)|
  {
    var before, until := sh.published[..v.subscribed], sh.published[..v.cut];
    p, q := |OfTask(before, t)|, |OfTask(until, t)|;
    OfTaskPrefix(sh.published, v.cut, t);
    OfTaskPrefix(until, v.subscribed, t);
    assert until[..v.subscribed] == before && until[v.subscribed..] == sh.published[v.subscribed..v.cut];
    Between(OfTask(sh.db.log, t), OfTask(until, t), p, OfTask(before, t), OfTask(sh.published[v.subscribed..v.cut], t));
  }

  /** What was in the snapshot, and what came later. */
  lemma ReadPart(log: seq<Event>, n: nat, t: TaskId)
    requires Numbered(log) && n <= |log|
    ensures var stream, k := OfTask(log, t), |OfTask(log[..n], t)|;
            && k <= |stream| && OfTask(log[..n], t) == stream[..k]
            && (forall i :: k <= i < |stream| ==> stream[i].id > n)
            && (forall i :: 0 <= i < k ==> stream[i].id <= n)
  {
    OfTaskPrefix(log, n, t);
    OfTaskOrdered(log[..n], t);
    LateOnes(log, n, t);
    assert forall i :: 0 <= i < |OfTask(log[..n], t)| ==> OfTask(log, t)[i] == OfTask(log[..n], t)[i];
  }

  lemma NotFewer(stream: seq<Event>, before: seq<Event>, k: nat, n: nat)
    requires before <= stream && k <= |stream|
    requires forall i :: 0 <= i < |before| ==> before[i].id <= n
    requires forall i :: k <= i < |stream| ==> stream[i].id > n
    ensures |before| <= k
  {
    assert forall i :: 0 <= i < |before| ==> stream[i] == before[i];
    assert k < |stream| ==> stream[k].id > n;
  }

  /** The messages a connection hears are a stretch of the task's persisted stream. */
  lemma HeardStretch(sh: Shared, t: TaskId, v: View) returns (p: nat, q: nat, k: nat)
    requires Numbered(sh.db.log) && AllLogged(sh) && ViewOk(sh, v) && InOrder(sh, t)
    ensures var stream := OfTask(sh.db.log, t);
            && p <= q <= |stream| && p <= k <= |stream|
            && OfTask(sh.published[v.subscribed..v.cut], t) == stream[p..q]
            && OfTask(sh.db.log[..v.snapshot], t) == stream[..k]
            && q == |OfTask(sh.published[..v.cut], t)| && k == |OfTask(sh.db.log[..v.snapshot], t)|
  {
    p, q := HeardPart(sh, t, v);
    ReadPart(sh.db.log, v.snapshot, t);
    k := |OfTask(sh.db.log[..v.snapshot], t)|;
    SubscribedIds(sh.published[..v.subscribed], v.snapshot, t);
    NotFewer(OfTask(sh.db.log, t), OfTask(sh.published[..v.subscribed], t), k, v.snapshot);
  }

  lemma {:induction false} SubscribedIds(es: seq<Event>, n: nat, t: TaskId)
    requires forall i :: 0 <= i < |es| ==> es[i].id <= n
    ensures forall i :: 0 <= i < |OfTask(es, t)| ==> OfTask(es, t)[i].id <= n
    decreases |es|
  {
    if es != [] {
      SubscribedIds(es[..|es| - 1], n, t);
    }
  }

  lemma {:induction false} LateOnes(log: seq<Event>, n: nat, t: TaskId)
    requires Numbered(log) && n <= |log|
    ensures forall i :: |OfTask(log[..n], t)| <= i < |OfTask(log, t)| ==> OfTask(log, t)[i].id > n
    decreases |log|
  {
    if n < |log| {
      LateOnes(log[..|log| - 1], n, t);
      assert log[..|log| - 1][..n] == log[..n];
    } else {
      assert log[..n] == log;
    }
  }

  /** After the snapshot `stream[..k]`, the live loop adds exactly what the stretch
      `stream[p..q]` has beyond the snapshot. */
  lemma HandoffOnStream(stream: seq<Event>, after: int, p: nat, q: nat, k: nat)
    requires Increasing(stream) && p <= q <= |stream| && p <= k <= |stream|
    ensures var m := if k >= q then k else q;
            UpToEnd(Sent(after, Above(stream[..k], after), stream[p..q])) == UpToEnd(Above(stream[..m], after))
  {
    var m := if k >= q then k else q;
    var history, extra := Above(stream[..k], after), stream[k..m];
    assert stream[..m] == stream[..k] + extra;
    AboveJoin(stream[..k], extra, after);
    UpToEndJoin(history, Above(extra, after));
    if !HasEnd(history) {
      var seen := LastId(history, after);
      LiveIsFilter(stream[p..q], seen);
      StretchAbove(stream, after, p, q, k);
      var live := UpToEnd(Above(extra, after));
      assert Live(stream[p..q], seen) == live;
      UpToEndJoin(history, live);
      UpToEndTwice(Above(extra, after));
    } else {
      UpToEndJoin(history, []);
      assert history + [] == history;
    }
  }

  lemma SeenAfter(read: seq<Event>, after: int)
    requires Increasing(read)
    ensures var seen := LastId(Above(read, after), after);
            && (forall i :: 0 <= i < |read| ==> read[i].id <= seen)
            && (seen == after || (read != [] && seen == read[|read| - 1].id && seen > after))
  {
    AboveKeeps(read, after);
  }

  /** Beyond the last id read, a stretch of the stream is what comes after that reading. */
  lemma BeyondRead(stream: seq<Event>, p: nat, q: nat, k: nat, seen: int)
    requires Increasing(stream) && p <= k < q <= |stream|
    requires forall i :: 0 <= i < k ==> stream[i].id <= seen
    ensures Above(stream[p..q], seen) == Above(stream[k..q], seen)
  {
    assert stream[p..q] == stream[p..k] + stream[k..q];
    AboveJoin(stream[p..k], stream[k..q], seen);
    NoneAbove(stream[p..k], seen);
  }

  lemma StretchAbove(stream: seq<Event>, after: int, p: nat, q: nat, k: nat)
    requires Increasing(stream) && p <= q <= |stream| && p <= k <= |stream|
    ensures var m := if k >= q then k else q;
            Above(stream[p..q], LastId(Above(stream[..k], after), after)) == Above(stream[k..m], after)
  {
    var seen := LastId(Above(stream[..k], after), after);
    SeenAfter(stream[..k], after);
    assert forall i :: 0 <= i < k ==> stream[i] == stream[..k][i];
    if q <= k {
      NoneAbove(stream[p..q], seen);
    } else {
      BeyondRead(stream, p, q, k, seen);
      if seen != after {
        AllAbove(stream[k..q], seen);
        AllAbove(stream[k..q], after);
      }
    }
  }

  /** Handoff completeness: up to the first terminal event, a connection delivers every
      event of the task above `after` that was persisted before its snapshot or published
      before it was cut; no gap, no repeat, nothing else. */
  lemma HandoffIsComplete(sh: Shared, t: TaskId, after: int, v: View)
    requires Numbered(sh.db.log) && AllLogged(sh) && ViewOk(sh, v) && InOrder(sh, t)
    ensures Reach(sh, t, v) <= |OfTask(sh.db.log, t)|
    ensures UpToEnd(Delivered(sh, t, after, v)) == UpToEnd(Above(OfTask(sh.db.log, t)[..Reach(sh, t, v)], after))
  {
    var p, q, k := HeardStretch(sh, t, v);
    OfTaskOrdered(sh.db.log, t);
    HistoryIsAbove(sh.db.log[..v.snapshot], t, after);
    HandoffOnStream(OfTask(sh.db.log, t), after, p, q, k);
  }

  // ---------- order, whatever the publishers do ----------

  lemma {:induction false} LiveOrdered(msgs: seq<Event>, seen: int)
    ensures Increasing(Live(msgs, seen))
    ensures forall i :: 0 <= i < |Live(msgs, seen)| ==> Live(msgs, seen)[i].id > seen && Live(msgs, seen)[i] in msgs
    decreases |msgs|
  {
    if msgs != [] {
      LiveOrdered(msgs[1..], seen);
      LiveOrdered(msgs[1..], msgs[0].id);
    }
  }

  lemma {:induction false} OfTaskFrom(es: seq<Event>, t: TaskId)
    ensures forall e :: e in OfTask(es, t) <==> e in es && e.taskId == t
    decreases |es|
  {
    if es != [] {
      OfTaskFrom(es[..|es| - 1], t);
      assert es == es[..|es| - 1] + [es[|es| - 1]];
    }
  }

  lemma IncreasingJoin(a: seq<Event>, b: seq<Event>, seen: int)
    requires Increasing(a) && Increasing(b)
    requires forall i :: 0 <= i < |a| ==> a[i].id <= seen
    requires forall i :: 0 <= i < |b| ==> b[i].id > seen
    ensures Increasing(a + b)
  {
  }

  lemma LastIsHighest(history: seq<Event>, after: int)
    requires Increasing(history) && forall i :: 0 <= i < |history| ==> history[i].id > after
    ensures LastId(history, after) >= after
    ensures forall i :: 0 <= i < |history| ==> history[i].id <= LastId(history, after)
  {
  }

  lemma SentOrdered(after: int, history: seq<Event>, msgs: seq<Event>)
    requires Increasing(history) && forall i :: 0 <= i < |history| ==> history[i].id > after
    ensures var sent := Sent(after, history, msgs);
            && Increasing(sent)
            && (forall i :: 0 <= i < |sent| ==> sent[i].id > after && (sent[i] in history || sent[i] in msgs))
  {
    var seen := LastId(history, after);
    LastIsHighest(history, after);
    if !HasEnd(history) {
      LiveOrdered(msgs, seen);
      IncreasingJoin(history, Live(msgs, seen), seen);
    }
  }

  lemma LoggedBefore(log: seq<Event>, n: nat, e: Event)
    requires Numbered(log) && n <= |log| && e in log[..n]
    ensures Logged(log, e)
  {
    var i :| 0 <= i < n && log[..n][i] == e;
    assert log[i] == e;
  }

  /** The history of a connection: exactly the task's persisted rows above `after`, each
      once, in id order. */
  lemma HistoryOrdered(log: seq<Event>, n: nat, t: TaskId, after: int)
    requires Numbered(log) && n <= |log|
    ensures var history := EventsAfter(log[..n], t, after);
            && Increasing(history)
            && (forall i :: 0 <= i < |history| ==> history[i].id > after)
            && (forall e :: e in history <==> e in log[..n] && e.taskId == t && e.id > after)
            && (forall e :: e in history ==> Logged(log, e))
  {
    OfTaskOrdered(log[..n], t);
    HistoryIsAbove(log[..n], t, after);
    AboveOrdered(OfTask(log[..n], t), after);
    forall e | e in EventsAfter(log[..n], t, after) ensures Logged(log, e) {
      LoggedBefore(log, n, e);
    }
  }

  /** For any order of publishing, with duplicates and gaps, and any snapshot point: the
      ids a connection sends strictly increase, all above `after`, and each event is the
      persisted row with that id, of that task. */
  lemma StreamIsOrdered(sh: Shared, t: TaskId, after: int, v: View)
    requires Numbered(sh.db.log) && AllLogged(sh) && ViewOk(sh, v)
    ensures var sent := Delivered(sh, t, after, v);
            && Increasing(sent)
            && (forall i :: 0 <= i < |sent| ==> sent[i].id > after && sent[i].taskId == t && Logged(sh.db.log, sent[i]))
  {
    var heard := sh.published[v.subscribed..v.cut];
    HistoryOrdered(sh.db.log, v.snapshot, t, after);
    OfTaskFrom(heard, t);
    SentOrdered(after, EventsAfter(sh.db.log[..v.snapshot], t, after), OfTask(heard, t));
  }

  // ---------- connections of a run ----------

  predicate Extends(sh: Shared, sh': Shared) {
    sh.db.log <= sh'.db.log && sh.published <= sh'.published
  }

  lemma StepExtends(cfg: Config, s: State, step: Step)
    requires Inv(s) && Enabled(s, step)
    ensures Extends(s.sh, Next(cfg, s, step).sh)
  {
    StepIsCall(cfg, s, step);
    LogGrows(s.sh.db, StepCall(s, step));
    match step
    case WorkerStep(w, a) => PublishesLogged(w, cfg.cap, s.sh, s.workers[w], a);
    case _ =>
  }

  lemma LogGrows(db: Db, calls: seq<Call>)
    requires Keyed(db.tasks) && |calls| <= 1
    ensures calls != [] ==> db.log <= Exec(db, calls[0]).log
  {
    if calls != [] {
      CallGrows(db, calls[0]);
    }
  }

  lemma {:induction false} RunExtends(cfg: Config, s: State, steps: seq<Step>)
    requires Inv(s) && IsRun(cfg, s, steps)
    ensures Inv(Run(cfg, s, steps)) && Extends(s.sh, Run(cfg, s, steps).sh)
    decreases |steps|
  {
    if steps != [] {
      StepExtends(cfg, s, steps[0]);
      StepKeeps(cfg, s, steps[0]);
      RunExtends(cfg, Next(cfg, s, steps[0]), steps[1..]);
    }
  }

  lemma InvIsLogged(s: State)
    requires Inv(s)
    ensures Numbered(s.sh.db.log) && AllLogged(s.sh)
  {
  }

  lemma ViewOfStates(sh1: Shared, sh2: Shared, sh3: Shared, sh4: Shared)
    requires Extends(sh1, sh2) && Extends(sh2, sh3) && Extends(sh3, sh4) && AllLogged(sh1)
    ensures var v := View(|sh1.published|, |sh2.db.log|, |sh3.published|);
            ViewOk(sh4, v) && sh4.db.log[..v.snapshot] == sh2.db.log
            && sh4.published[v.subscribed..v.cut] == sh3.published[|sh1.published|..]
  {
    forall i | 0 <= i < |sh1.published| ensures sh4.published[i].id <= |sh2.db.log| {
      assert sh4.published[i] == sh1.published[i];
      assert Logged(sh1.db.log, sh1.published[i]);
    }
  }

  /** A connection of a run: the server subscribes in the state after `steps`, reads the
      history after `reading`, and is cut after `listening`; the run goes on. */
  lemma ViewOfRun(cfg: Config, steps: seq<Step>, reading: seq<Step>, listening: seq<Step>, later: seq<Step>)
    returns (v: View)
    requires IsRun(cfg, Init(cfg), steps)
    requires IsRun(cfg, Run(cfg, Init(cfg), steps), reading)
    requires IsRun(cfg, Run(cfg, Run(cfg, Init(cfg), steps), reading), listening)
    requires IsRun(cfg, Run(cfg, Run(cfg, Run(cfg, Init(cfg), steps), reading), listening), later)
    ensures var s1 := Run(cfg, Init(cfg), steps); var s2 := Run(cfg, s1, reading);
            var s3 := Run(cfg, s2, listening); var s4 := Run(cfg, s3, later);
            && Numbered(s4.sh.db.log) && AllLogged(s4.sh) && ViewOk(s4.sh, v)
            && s4.sh.db.log[..v.snapshot] == s2.sh.db.log
            && |s1.sh.published| <= |s3.sh.published|
            && s4.sh.published[v.subscribed..v.cut] == s3.sh.published[|s1.sh.published|..]
  {
    InitHolds(cfg);
    var s1 := Run(cfg, Init(cfg), steps);
    RunExtends(cfg, Init(cfg), steps);
    InvIsLogged(s1);
    var s2 := Run(cfg, s1, reading);
    RunExtends(cfg, s1, reading);
    var s3 := Run(cfg, s2, listening);
    RunExtends(cfg, s2, listening);
    var s4 := Run(cfg, s3, later);
    RunExtends(cfg, s3, later);
    InvIsLogged(s4);
    ViewOfStates(s1.sh, s2.sh, s3.sh, s4.sh);
    v := View(|s1.sh.published|, |s2.sh.db.log|, |s3.sh.published|);
  }
}

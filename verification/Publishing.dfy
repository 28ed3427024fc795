/** Every event is published at most once, and a live stream has no gap exactly when the
    events of the task are published in order. */
module Publishing {
  import opened Models
  import opened Database
  import opened History
  import opened System
  import opened SystemProof
  import opened Guarantees
  import opened Stream
  import opened Follow

  // ---------- at most one publish per event ----------

  /** A process that may still have to publish something. */
  datatype Place = AtWorker(w: WorkerId) | AtRequest(h: nat)

  /** The event that a worker has appended and publishes next. */
  function Unpublished(me: Worker): Option<Event> {
    match me
    case MendPublish(e, _) => Some(e)
    case EndPublish(e, _, _) => Some(e)
    case Attempting(_, _, _, stage) =>
      if stage.StartPublish? || stage.EmitPublish? then Some(stage.e) else None
    case _ => None
  }

  function Unsent(me: Handler): Option<Event> {
    if me.CancelPublish? then Some(me.e) else None
  }

  ghost function Pending(s: State, p: Place): Option<Event> {
    match p
    case AtWorker(w) => if w in s.workers then Unpublished(s.workers[w]) else None
    case AtRequest(h) => if h in s.handlers then Unsent(s.handlers[h]) else None
  }

  predicate Distinct(es: seq<Event>) {
    forall i, j :: 0 <= i < j < |es| ==> es[i].id != es[j].id
  }

  predicate Fresh(es: seq<Event>, id: nat) {
    forall i :: 0 <= i < |es| ==> es[i].id != id
  }

  predicate Apart(a: Option<Event>, b: Option<Event>) {
    a.Some? && b.Some? ==> a.value.id != b.value.id
  }

  /** Nothing that is still to be published has been published, nor is it pending twice. */
  ghost predicate PublishedOnce(s: State) {
    && Distinct(s.sh.published)
    && (forall p :: Pending(s, p).Some? ==> Fresh(s.sh.published, Pending(s, p).value.id))
    && (forall p, q :: p != q ==> Apart(Pending(s, p), Pending(s, q)))
  }

  /** What a step may do to one process's pending event and to the channel. */
  predicate Publishes(n: nat, pub: seq<Event>, was: Option<Event>, pub': seq<Event>, now: Option<Event>) {
    || (pub' == pub && (now == None || now == was || (now.Some? && now.value.id == n + 1)))
    || (was.Some? && pub' == pub + [was.value] && now == None)
  }

  lemma WorkerPublishes(self: WorkerId, cap: int, sh: Shared, me: Worker, a: Action)
    requires WorkerCan(sh, me, a)
    ensures var (sh', me') := WorkerMove(self, cap, sh, me, a);
            Publishes(|sh.db.log|, sh.published, Unpublished(me), sh'.published, Unpublished(me'))
  {
  }

  lemma RequestPublishes(sh: Shared, me: Handler)
    ensures var (sh', me') := HandlerMove(sh, me);
            Publishes(|sh.db.log|, sh.published, Unsent(me), sh'.published, Unsent(me'))
  {
  }

  /** Only the process that moves publishes or gets something to publish. */
  lemma StepPublishes(cfg: Config, s: State, step: Step) returns (p: Place)
    requires Enabled(s, step)
    ensures var s' := Next(cfg, s, step);
            && Publishes(|s.sh.db.log|, s.sh.published, Pending(s, p), s'.sh.published, Pending(s', p))
            && forall q :: q != p ==> Pending(s', q) == Pending(s, q)
  {
    match step
    case WorkerStep(w, a) =>
      p := AtWorker(w);
      WorkerPublishes(w, cfg.cap, s.sh, s.workers[w], a);
    case HandlerStep(h) =>
      p := AtRequest(h);
      RequestPublishes(s.sh, s.handlers[h]);
    case Submit(h, _, _, _, _) => p := AtRequest(h);
    case AskCancel(h, _) => p := AtRequest(h);
    case RedisLoss(_, _) => p := AtRequest(0);
  }

  lemma PendingIsLogged(s: State, p: Place)
    requires Inv(s) && Pending(s, p).Some?
    ensures Logged(s.sh.db.log, Pending(s, p).value)
  {
  }

  lemma AllLoggedBefore(s: State)
    requires Inv(s)
    ensures forall i :: 0 <= i < |s.sh.published| ==> s.sh.published[i].id <= |s.sh.db.log|
    ensures forall q :: Pending(s, q).Some? ==> Pending(s, q).value.id <= |s.sh.db.log|
  {
    forall i | 0 <= i < |s.sh.published| ensures s.sh.published[i].id <= |s.sh.db.log| {
      assert Logged(s.sh.db.log, s.sh.published[i]);
    }
    forall q | Pending(s, q).Some? ensures Pending(s, q).value.id <= |s.sh.db.log| {
      PendingIsLogged(s, q);
    }
  }

  /** One process has moved from `s` to `s'`; `n` bounds all ids so far. */
  ghost predicate OneMoved(s: State, s': State, p: Place, n: nat) {
    && Publishes(n, s.sh.published, Pending(s, p), s'.sh.published, Pending(s', p))
    && (forall q :: q != p ==> Pending(s', q) == Pending(s, q))
    && (forall i :: 0 <= i < |s.sh.published| ==> s.sh.published[i].id <= n)
    && (forall q :: Pending(s, q).Some? ==> Pending(s, q).value.id <= n)
  }

  lemma FreshAfter(s: State, s': State, p: Place, n: nat)
    requires OneMoved(s, s', p, n) && PublishedOnce(s)
    ensures Distinct(s'.sh.published)
    ensures forall q :: Pending(s', q).Some? ==> Fresh(s'.sh.published, Pending(s', q).value.id)
  {
    ChannelStays(n, s.sh.published, Pending(s, p), s'.sh.published, Pending(s', p));
    forall q | Pending(s', q).Some? ensures Fresh(s'.sh.published, Pending(s', q).value.id) {
      if q != p {
        assert Apart(Pending(s, q), Pending(s, p));
        OthersStayFresh(n, s.sh.published, Pending(s, p), s'.sh.published, Pending(s', p), Pending(s, q).value);
      }
    }
  }

  lemma ApartAfter(s: State, s': State, p: Place, n: nat, q: Place, r: Place)
    requires OneMoved(s, s', p, n) && PublishedOnce(s) && q != r
    ensures Apart(Pending(s', q), Pending(s', r))
  {
    assert Apart(Pending(s, q), Pending(s, r));
  }

  lemma PublishedOnceStep(cfg: Config, s: State, step: Step)
    requires Inv(s) && PublishedOnce(s) && Enabled(s, step)
    ensures PublishedOnce(Next(cfg, s, step))
  {
    var p := StepPublishes(cfg, s, step);
    AllLoggedBefore(s);
    StaysOnce(s, Next(cfg, s, step), p, |s.sh.db.log|);
  }

  lemma StaysOnce(s: State, s': State, p: Place, n: nat)
    requires OneMoved(s, s', p, n) && PublishedOnce(s)
    ensures PublishedOnce(s')
  {
    FreshAfter(s, s', p, n);
    forall q, r | q != r ensures Apart(Pending(s', q), Pending(s', r)) {
      ApartAfter(s, s', p, n, q, r);
    }
  }

  lemma ChannelStays(n: nat, pub: seq<Event>, was: Option<Event>, pub': seq<Event>, now: Option<Event>)
    requires Publishes(n, pub, was, pub', now) && Distinct(pub) && (was.Some? ==> Fresh(pub, was.value.id))
    requires forall i :: 0 <= i < |pub| ==> pub[i].id <= n
    ensures Distinct(pub') && (now.Some? ==> Fresh(pub', now.value.id))
  {
  }

  lemma OthersStayFresh(n: nat, pub: seq<Event>, was: Option<Event>, pub': seq<Event>, now: Option<Event>, e: Event)
    requires Publishes(n, pub, was, pub', now) && Fresh(pub, e.id) && Apart(Some(e), was)
    ensures Fresh(pub', e.id)
  {
  }

  lemma {:induction false} RunPublishesOnce(cfg: Config, s: State, steps: seq<Step>)
    requires Inv(s) && PublishedOnce(s) && IsRun(cfg, s, steps)
    ensures PublishedOnce(Run(cfg, s, steps))
    decreases |steps|
  {
    if steps != [] {
      PublishedOnceStep(cfg, s, steps[0]);
      StepKeeps(cfg, s, steps[0]);
      RunPublishesOnce(cfg, Next(cfg, s, steps[0]), steps[1..]);
    }
  }

  /** In any run no event is published twice. */
  lemma NoEventTwice(cfg: Config, steps: seq<Step>)
    requires IsRun(cfg, Init(cfg), steps)
    ensures Distinct(Run(cfg, Init(cfg), steps).sh.published)
  {
    InitHolds(cfg);
    RunPublishesOnce(cfg, Init(cfg), steps);
  }

  // ---------- the connections of a run ----------

  /** The run stands at `s` after `a` of its steps. */
  ghost predicate At(cfg: Config, steps: seq<Step>, a: nat, s: State) {
    a <= |steps| && IsRun(cfg, Init(cfg), steps[..a]) && Run(cfg, Init(cfg), steps[..a]) == s
  }

  /** A connection to the task's stream that the server had in this run: it subscribed when
      the task existed, then read the history, and then was cut, at three of its moments. */
  ghost predicate RealView(cfg: Config, steps: seq<Step>, t: TaskId, v: View) {
    exists a, b, c, s1, s2, s3 :: Witnessed(cfg, steps, t, v, a, b, c, s1, s2, s3)
  }

  ghost predicate Witnessed(cfg: Config, steps: seq<Step>, t: TaskId, v: View,
                            a: nat, b: nat, c: nat, s1: State, s2: State, s3: State)
  {
    && a <= b <= c && At(cfg, steps, a, s1) && At(cfg, steps, b, s2) && At(cfg, steps, c, s3)
    && t in s1.sh.db.tasks
    && v == View(|s1.sh.published|, |s2.sh.db.log|, |s3.sh.published|)
  }

  lemma {:induction false} RunSplits(cfg: Config, s: State, steps: seq<Step>, a: nat)
    requires IsRun(cfg, s, steps) && a <= |steps|
    ensures IsRun(cfg, s, steps[..a]) && IsRun(cfg, Run(cfg, s, steps[..a]), steps[a..])
    ensures Run(cfg, Run(cfg, s, steps[..a]), steps[a..]) == Run(cfg, s, steps)
    decreases a
  {
    if a > 0 {
      RunSplits(cfg, Next(cfg, s, steps[0]), steps[1..], a - 1);
      assert steps[..a][0] == steps[0] && steps[..a][1..] == steps[1..][..a - 1];
      assert steps[a..] == steps[1..][a - 1..];
    } else {
      assert steps[..0] == [] && steps[0..] == steps;
    }
  }

  lemma AtIsReached(cfg: Config, steps: seq<Step>, a: nat, s: State, b: nat, s': State)
    requires At(cfg, steps, a, s) && At(cfg, steps, b, s') && a <= b
    ensures Inv(s) && Inv(s') && Extends(s.sh, s'.sh)
  {
    InitHolds(cfg);
    assert steps[..b][..a] == steps[..a];
    RunSplits(cfg, Init(cfg), steps[..b], a);
    RunKeeps(cfg, Init(cfg), steps[..a]);
    RunExtends(cfg, s, steps[..b][a..]);
  }

  lemma AtTheEnd(cfg: Config, steps: seq<Step>)
    requires IsRun(cfg, Init(cfg), steps)
    ensures At(cfg, steps, |steps|, Run(cfg, Init(cfg), steps))
  {
    assert steps[..|steps|] == steps;
  }

  lemma RealViewIsOk(cfg: Config, steps: seq<Step>, t: TaskId, v: View)
    requires IsRun(cfg, Init(cfg), steps) && RealView(cfg, steps, t, v)
    ensures ViewOk(Run(cfg, Init(cfg), steps).sh, v)
  {
    var a, b, c, s1, s2, s3 :| Witnessed(cfg, steps, t, v, a, b, c, s1, s2, s3);
    var s4 := Run(cfg, Init(cfg), steps);
    AtTheEnd(cfg, steps);
    AtIsReached(cfg, steps, a, s1, b, s2);
    AtIsReached(cfg, steps, b, s2, c, s3);
    AtIsReached(cfg, steps, c, s3, |steps|, s4);
    InvIsLogged(s1);
    ViewOfStates(s1.sh, s2.sh, s3.sh, s4.sh);
  }

  // ---------- the moment after the submission ----------

  lemma {:induction false} NoneOfTask(es: seq<Event>, t: TaskId)
    requires forall i :: 0 <= i < |es| ==> es[i].taskId != t
    ensures OfTask(es, t) == []
    decreases |es|
  {
    if es != [] {
      NoneOfTask(es[..|es| - 1], t);
    }
  }

  /** A task that does not exist has no events. */
  lemma NoEventsYet(s: State, t: TaskId)
    requires Inv(s) && t !in s.sh.db.tasks
    ensures OfTask(s.sh.db.log, t) == [] && OfTask(s.sh.published, t) == []
  {
    NoneOfTask(s.sh.db.log, t);
    forall i | 0 <= i < |s.sh.published| ensures s.sh.published[i].taskId != t {
      assert Logged(s.sh.db.log, s.sh.published[i]);
    }
    NoneOfTask(s.sh.published, t);
  }

  /** Nothing is logged or published by the step that creates a task. */
  lemma CreationIsQuiet(cfg: Config, s: State, step: Step, t: TaskId)
    requires Inv(s) && Enabled(s, step) && t !in s.sh.db.tasks && t in Next(cfg, s, step).sh.db.tasks
    ensures Next(cfg, s, step).sh.db.log == s.sh.db.log && Next(cfg, s, step).sh.published == s.sh.published
  {
    StepIsCall(cfg, s, step);
    if StepCall(s, step) != [] && !StepCall(s, step)[0].DoCreate? {
      OthersKeepKeys(s.sh.db, StepCall(s, step)[0], t);
    }
    CreatedBySubmit(s, step);
  }

  lemma CreatedBySubmit(s: State, step: Step)
    requires Enabled(s, step)
    ensures StepCall(s, step) != [] && StepCall(s, step)[0].DoCreate? ==> step.Submit?
  {
  }

  /** A run without its last step. */
  lemma {:induction false} RunLast(cfg: Config, s: State, steps: seq<Step>)
    requires IsRun(cfg, s, steps) && steps != []
    ensures IsRun(cfg, s, steps[..|steps| - 1])
    ensures var before := Run(cfg, s, steps[..|steps| - 1]);
            Enabled(before, steps[|steps| - 1]) && Next(cfg, before, steps[|steps| - 1]) == Run(cfg, s, steps)
    decreases |steps|
  {
    var rest := steps[1..];
    if rest == [] {
      assert steps[..0] == [];
    } else {
      RunLast(cfg, Next(cfg, s, steps[0]), rest);
      assert steps[..|steps| - 1][0] == steps[0] && steps[..|steps| - 1][1..] == rest[..|rest| - 1];
    }
  }

  lemma LastStep(cfg: Config, steps: seq<Step>) returns (s: State)
    requires IsRun(cfg, Init(cfg), steps) && steps != []
    ensures IsRun(cfg, Init(cfg), steps[..|steps| - 1]) && Run(cfg, Init(cfg), steps[..|steps| - 1]) == s
    ensures Inv(s) && Enabled(s, steps[|steps| - 1])
    ensures Next(cfg, s, steps[|steps| - 1]) == Run(cfg, Init(cfg), steps)
  {
    RunLast(cfg, Init(cfg), steps);
    s := Run(cfg, Init(cfg), steps[..|steps| - 1]);
    InitHolds(cfg);
    RunKeeps(cfg, Init(cfg), steps[..|steps| - 1]);
  }

  lemma AtShorter(cfg: Config, steps: seq<Step>, a: nat, s: State)
    requires steps != [] && At(cfg, steps[..|steps| - 1], a, s)
    ensures At(cfg, steps, a, s)
  {
    assert steps[..|steps| - 1][..a] == steps[..a];
  }

  /** Every task has a moment at which it exists and none of its events does. */
  lemma {:induction false} Birth(cfg: Config, steps: seq<Step>, t: TaskId) returns (a: nat, s: State)
    requires IsRun(cfg, Init(cfg), steps) && t in Run(cfg, Init(cfg), steps).sh.db.tasks
    ensures At(cfg, steps, a, s) && t in s.sh.db.tasks
    ensures OfTask(s.sh.db.log, t) == [] && OfTask(s.sh.published, t) == []
    decreases |steps|
  {
    var before := LastStep(cfg, steps);
    if t in before.sh.db.tasks {
      a, s := Birth(cfg, steps[..|steps| - 1], t);
      AtShorter(cfg, steps, a, s);
    } else {
      a, s := |steps|, Run(cfg, Init(cfg), steps);
      NoEventsYet(before, t);
      CreationIsQuiet(cfg, before, steps[|steps| - 1], t);
      AtTheEnd(cfg, steps);
    }
  }

  /** Messages come one by one, so a connection can be cut after any number of them. */
  lemma {:induction false} CutMoment(cfg: Config, steps: seq<Step>, a: nat, s: State, k: nat)
    returns (c: nat, s': State)
    requires IsRun(cfg, Init(cfg), steps) && At(cfg, steps, a, s)
    requires |s.sh.published| <= k <= |Run(cfg, Init(cfg), steps).sh.published|
    ensures a <= c && At(cfg, steps, c, s') && |s'.sh.published| == k
    decreases |steps|
  {
    if |Run(cfg, Init(cfg), steps).sh.published| == k || a == |steps| {
      c, s' := |steps|, Run(cfg, Init(cfg), steps);
      AtTheEnd(cfg, steps);
    } else {
      var before := LastStep(cfg, steps);
      var p := StepPublishes(cfg, before, steps[|steps| - 1]);
      assert steps[..|steps| - 1][..a] == steps[..a];
      c, s' := CutMoment(cfg, steps[..|steps| - 1], a, s, k);
      AtShorter(cfg, steps, c, s');
    }
  }

  /** A connection opened before any event of the task, and cut after c + 1 messages. */
  predicate Early(sh: Shared, t: TaskId, c: nat, v: View) {
    && ViewOk(sh, v) && v.cut == c + 1
    && OfTask(sh.published[..v.subscribed], t) == [] && OfTask(sh.db.log[..v.snapshot], t) == []
  }

  lemma EarlyOf(sh: Shared, end: Shared, t: TaskId, c: nat, v: View)
    requires Extends(sh, end) && OfTask(sh.published, t) == [] && OfTask(sh.db.log, t) == []
    requires v == View(|sh.published|, |sh.db.log|, c + 1) && ViewOk(end, v)
    ensures Early(end, t, c, v)
  {
    assert end.published[..|sh.published|] == sh.published;
    assert end.db.log[..|sh.db.log|] == sh.db.log;
  }

  /** For every message of the task the server can have had such a connection: opened right
      after the submission and cut right after the message. */
  lemma EarlyView(cfg: Config, steps: seq<Step>, t: TaskId, c: nat) returns (v: View)
    requires IsRun(cfg, Init(cfg), steps) && t in Run(cfg, Init(cfg), steps).sh.db.tasks
    requires var sh := Run(cfg, Init(cfg), steps).sh; c < |sh.published| && sh.published[c].taskId == t
    ensures RealView(cfg, steps, t, v) && Early(Run(cfg, Init(cfg), steps).sh, t, c, v)
  {
    var a, s := Birth(cfg, steps, t);
    v := View(|s.sh.published|, |s.sh.db.log|, c + 1);
    EarlyExtends(cfg, steps, a, s, t, c);
    var k, s3 := CutMoment(cfg, steps, a, s, c + 1);
    assert Witnessed(cfg, steps, t, v, a, a, k, s, s, s3);
    RealViewIsOk(cfg, steps, t, v);
    EarlyOf(s.sh, Run(cfg, Init(cfg), steps).sh, t, c, v);
  }

  lemma EarlyExtends(cfg: Config, steps: seq<Step>, a: nat, s: State, t: TaskId, c: nat)
    requires IsRun(cfg, Init(cfg), steps) && At(cfg, steps, a, s) && OfTask(s.sh.published, t) == []
    requires var sh := Run(cfg, Init(cfg), steps).sh; c < |sh.published| && sh.published[c].taskId == t
    ensures Extends(s.sh, Run(cfg, Init(cfg), steps).sh) && |s.sh.published| <= c
  {
    AtExtends(cfg, steps, a, s);
    ComesLater(s.sh.published, Run(cfg, Init(cfg), steps).sh.published, c, t);
  }

  lemma AtExtends(cfg: Config, steps: seq<Step>, a: nat, s: State)
    requires IsRun(cfg, Init(cfg), steps) && At(cfg, steps, a, s)
    ensures Extends(s.sh, Run(cfg, Init(cfg), steps).sh)
  {
    AtTheEnd(cfg, steps);
    AtIsReached(cfg, steps, a, s, |steps|, Run(cfg, Init(cfg), steps));
  }

  lemma ComesLater(before: seq<Event>, published: seq<Event>, c: nat, t: TaskId)
    requires before <= published && c < |published| && published[c].taskId == t && OfTask(before, t) == []
    ensures |before| <= c
  {
    OfTaskFrom(before, t);
    if c < |before| {
      InFront(before, published, c);
    }
  }

  lemma InFront(before: seq<Event>, published: seq<Event>, c: nat)
    requires before <= published && c < |before|
    ensures published[c] in before
  {
    assert before[c] == published[c];
  }

  // ---------- no gap, exactly when in order ----------

  /** This connection sends, up to the first terminal event, a first part of what the
      client is owed: nothing is missing before what it sends. */
  predicate GapFree(sh: Shared, t: TaskId, after: int, v: View)
    requires ViewOk(sh, v)
  {
    UpToEnd(Delivered(sh, t, after, v)) <= Owed(OfTask(sh.db.log, t), after)
  }

  predicate GapFreeView(sh: Shared, t: TaskId, after: int, v: View) {
    ViewOk(sh, v) && GapFree(sh, t, after, v)
  }

  /** No connection of this run, opened anywhere and cut anywhere, has a gap. */
  ghost predicate NeverAGap(cfg: Config, steps: seq<Step>, t: TaskId)
    requires IsRun(cfg, Init(cfg), steps)
  {
    forall after, v :: RealView(cfg, steps, t, v) ==> GapFreeView(Run(cfg, Init(cfg), steps).sh, t, after, v)
  }

  lemma {:induction false} LiveSkips(msgs: seq<Event>, seen: int, e: Event)
    requires (forall i :: 0 <= i < |msgs| ==> msgs[i].id <= seen) && e.id > seen
    ensures Live(msgs + [e], seen) == [e]
    decreases |msgs|
  {
    if msgs == [] {
      assert msgs + [e] == [e] && [e][1..] == [];
    } else {
      assert (msgs + [e])[1..] == msgs[1..] + [e];
      LiveSkips(msgs[1..], seen, e);
    }
  }

  lemma AboveBefore(stream: seq<Event>, n: nat)
    requires Increasing(stream) && n < |stream|
    ensures Above(stream, stream[n].id - 1) == stream[n..]
  {
    var after, rest := stream[n].id - 1, stream[n..];
    assert stream == stream[..n] + rest;
    AboveJoin(stream[..n], rest, after);
    NoneAbove(stream[..n], after);
    AllAbove(rest, after);
  }

  /** Asked for everything from the n-th event on, the log owes that event first. */
  lemma OwedFirst(stream: seq<Event>, n: nat)
    requires Increasing(stream) && n < |stream|
    ensures Owed(stream, stream[n].id - 1) != [] && Owed(stream, stream[n].id - 1)[0] == stream[n]
  {
    AboveBefore(stream, n);
    assert stream[n..][0] == stream[n];
  }

  lemma OfTaskNext(es: seq<Event>, c: nat, t: TaskId)
    requires c < |es|
    ensures OfTask(es[..c + 1], t) == OfTask(es[..c], t) + if es[c].taskId == t then [es[c]] else []
  {
    assert es[..c + 1][..c] == es[..c];
  }

  lemma NotHeardYet(published: seq<Event>, c: nat, t: TaskId)
    requires Distinct(published) && c < |published|
    ensures forall i :: 0 <= i < |OfTask(published[..c], t)| ==> OfTask(published[..c], t)[i].id != published[c].id
  {
    var heard := OfTask(published[..c], t);
    OfTaskFrom(published[..c], t);
    forall i | 0 <= i < |heard| ensures heard[i].id != published[c].id {
      assert heard[i] in published[..c];
      var k :| 0 <= k < c && published[..c][k] == heard[i];
      assert published[k] == heard[i];
    }
  }

  /** A message that the stream has not had yet sits in it at or after the first missing place. */
  lemma PlaceOf(sh: Shared, t: TaskId, c: nat) returns (j: nat)
    requires Numbered(sh.db.log) && AllLogged(sh) && Distinct(sh.published)
    requires c < |sh.published| && sh.published[c].taskId == t
    requires OfTask(sh.published[..c], t) <= OfTask(sh.db.log, t)
    ensures |OfTask(sh.published[..c], t)| <= j < |OfTask(sh.db.log, t)|
    ensures OfTask(sh.db.log, t)[j] == sh.published[c]
  {
    var e, heard := sh.published[c], OfTask(sh.published[..c], t);
    assert Logged(sh.db.log, e);
    OfTaskFrom(sh.db.log, t);
    assert e in OfTask(sh.db.log, t);
    j :| 0 <= j < |OfTask(sh.db.log, t)| && OfTask(sh.db.log, t)[j] == e;
    NotHeardYet(sh.published, c, t);
    assert forall i :: 0 <= i < |heard| ==> OfTask(sh.db.log, t)[i] == heard[i];
  }

  /** An early connection that asks from `after` on is sent just the last message that it
      hears, if that is the only one above. */
  lemma SentAlone(sh: Shared, t: TaskId, c: nat, after: int, v: View)
    requires c < |sh.published| && sh.published[c].taskId == t && sh.published[c].id > after && Early(sh, t, c, v)
    requires forall i :: 0 <= i < |OfTask(sh.published[..c], t)| ==> OfTask(sh.published[..c], t)[i].id <= after
    ensures Delivered(sh, t, after, v) == [sh.published[c]]
    ensures UpToEnd(Delivered(sh, t, after, v)) == [sh.published[c]]
  {
    var e, heard := sh.published[c], OfTask(sh.published[..c], t);
    OfTaskNext(sh.published, c, t);
    assert sh.published[..c + 1][..v.subscribed] == sh.published[..v.subscribed];
    assert sh.published[..c + 1][v.subscribed..] == sh.published[v.subscribed..c + 1];
    OfTaskPrefix(sh.published[..c + 1], v.subscribed, t);
    HistoryIsAbove(sh.db.log[..v.snapshot], t, after);
    LiveSkips(heard, after, e);
    assert [] + [e] == [e];
    UpToEndOne(e);
  }

  lemma UpToEndOne(e: Event)
    ensures UpToEnd([e]) == [e]
  {
    assert [e][1..] == [];
  }

  /** Some early connection that hears the message has no gap, wherever it starts from. */
  ghost predicate Heard(sh: Shared, t: TaskId, c: nat) {
    exists v :: Early(sh, t, c, v) && forall after :: GapFreeView(sh, t, after, v)
  }

  /** If an early connection that hears the message from the first open place on has no gap,
      the message belongs in that place. */
  lemma InPlace(sh: Shared, t: TaskId, c: nat, v: View)
    requires Numbered(sh.db.log) && AllLogged(sh) && Distinct(sh.published)
    requires c < |sh.published| && sh.published[c].taskId == t && Early(sh, t, c, v)
    requires OfTask(sh.published[..c], t) <= OfTask(sh.db.log, t)
    requires forall after :: GapFreeView(sh, t, after, v)
    ensures |OfTask(sh.published[..c], t)| < |OfTask(sh.db.log, t)|
    ensures OfTask(sh.db.log, t)[|OfTask(sh.published[..c], t)|] == sh.published[c]
  {
    var stream, heard := OfTask(sh.db.log, t), OfTask(sh.published[..c], t);
    var n := |heard|;
    var j := PlaceOf(sh, t, c);
    OfTaskOrdered(sh.db.log, t);
    var after := stream[n].id - 1;
    assert forall i :: 0 <= i < n ==> heard[i] == stream[i];
    SentAlone(sh, t, c, after, v);
    assert GapFreeView(sh, t, after, v);
    OwedFirst(stream, n);
    assert [sh.published[c]][0] == stream[n];
  }

  lemma NextInOrder(sh: Shared, t: TaskId, c: nat)
    requires Numbered(sh.db.log) && AllLogged(sh) && Distinct(sh.published)
    requires c < |sh.published| && (sh.published[c].taskId == t ==> Heard(sh, t, c))
    requires OfTask(sh.published[..c], t) <= OfTask(sh.db.log, t)
    ensures OfTask(sh.published[..c + 1], t) <= OfTask(sh.db.log, t)
  {
    OfTaskNext(sh.published, c, t);
    if sh.published[c].taskId == t {
      var v :| Early(sh, t, c, v) && forall after :: GapFreeView(sh, t, after, v);
      InPlace(sh, t, c, v);
      OneFurther(OfTask(sh.db.log, t), OfTask(sh.published[..c], t), sh.published[c]);
    }
  }

  lemma OneFurther(stream: seq<Event>, heard: seq<Event>, e: Event)
    requires heard <= stream && |heard| < |stream| && stream[|heard|] == e
    ensures heard + [e] <= stream
  {
  }

  lemma {:induction false} AllInOrder(sh: Shared, t: TaskId, c: nat)
    requires Numbered(sh.db.log) && AllLogged(sh) && Distinct(sh.published) && c <= |sh.published|
    requires forall k :: 0 <= k < |sh.published| && sh.published[k].taskId == t ==> Heard(sh, t, k)
    ensures OfTask(sh.published[..c], t) <= OfTask(sh.db.log, t)
  {
    if c > 0 {
      AllInOrder(sh, t, c - 1);
      NextInOrder(sh, t, c - 1);
    } else {
      assert sh.published[..0] == [];
    }
  }

  lemma HeardWithoutGap(cfg: Config, steps: seq<Step>, t: TaskId, k: nat)
    requires IsRun(cfg, Init(cfg), steps) && t in Run(cfg, Init(cfg), steps).sh.db.tasks
    requires NeverAGap(cfg, steps, t)
    requires var pub := Run(cfg, Init(cfg), steps).sh.published; k < |pub| && pub[k].taskId == t
    ensures Heard(Run(cfg, Init(cfg), steps).sh, t, k)
  {
    var v := EarlyView(cfg, steps, t, k);
    assert forall after :: GapFreeView(Run(cfg, Init(cfg), steps).sh, t, after, v);
  }

  lemma HeardIsOrdered(sh: Shared, t: TaskId)
    requires Numbered(sh.db.log) && AllLogged(sh) && Distinct(sh.published)
    requires forall k :: 0 <= k < |sh.published| && sh.published[k].taskId == t ==> Heard(sh, t, k)
    ensures InOrder(sh, t)
  {
    AllInOrder(sh, t, |sh.published|);
    assert sh.published[..|sh.published|] == sh.published;
  }

  lemma GapFreeIsOrdered(cfg: Config, steps: seq<Step>, t: TaskId)
    requires IsRun(cfg, Init(cfg), steps) && t in Run(cfg, Init(cfg), steps).sh.db.tasks
    requires NeverAGap(cfg, steps, t)
    ensures InOrder(Run(cfg, Init(cfg), steps).sh, t)
  {
    var sh := Run(cfg, Init(cfg), steps).sh;
    forall k | 0 <= k < |sh.published| && sh.published[k].taskId == t ensures Heard(sh, t, k) {
      HeardWithoutGap(cfg, steps, t, k);
    }
    InitHolds(cfg);
    RunKeeps(cfg, Init(cfg), steps);
    InvIsLogged(Run(cfg, Init(cfg), steps));
    NoEventTwice(cfg, steps);
    HeardIsOrdered(sh, t);
  }

  lemma OrderedIsGapFree(cfg: Config, steps: seq<Step>, t: TaskId)
    requires IsRun(cfg, Init(cfg), steps) && InOrder(Run(cfg, Init(cfg), steps).sh, t)
    ensures NeverAGap(cfg, steps, t)
  {
    var s := Run(cfg, Init(cfg), steps);
    InitHolds(cfg);
    RunKeeps(cfg, Init(cfg), steps);
    InvIsLogged(s);
    forall after, v | RealView(cfg, steps, t, v) ensures GapFreeView(s.sh, t, after, v) {
      RealViewIsOk(cfg, steps, t, v);
      DeliveredIsOwed(s.sh, t, after, v);
    }
  }

  /** In any run: no connection to the task's stream that the server can have had, opened
      anywhere from the submission on and cut anywhere, has a gap, if and only if the events
      of the task were published in id order with none skipped. */
  lemma GapFreeIff(cfg: Config, steps: seq<Step>, t: TaskId)
    requires IsRun(cfg, Init(cfg), steps)
    ensures NeverAGap(cfg, steps, t) <==> InOrder(Run(cfg, Init(cfg), steps).sh, t)
  {
    var s := Run(cfg, Init(cfg), steps);
    if InOrder(s.sh, t) {
      OrderedIsGapFree(cfg, steps, t);
    }
    if NeverAGap(cfg, steps, t) {
      if t in s.sh.db.tasks {
        GapFreeIsOrdered(cfg, steps, t);
      } else {
        InitHolds(cfg);
        RunKeeps(cfg, Init(cfg), steps);
        NoEventsYet(s, t);
      }
    }
  }
}

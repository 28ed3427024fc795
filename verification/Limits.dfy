/** Exactly when the anomalies cannot happen: a terminal event is the last of its task, and
    a worker deletes no lease but its own. */
module Limits {
  import opened Models
  import opened Database
  import opened History
  import opened System
  import opened SystemProof
  import opened Guarantees
  import opened Blocks
  import opened Undisturbed
  import opened Stocked
  import opened Overshoot
  import opened Stream
  import opened Anomalies

  // ---------- one worker ----------

  ghost predicate Single(cfg: Config, s: State) {
    s.workers.Keys == cfg.workers && forall v, w :: v in cfg.workers && w in cfg.workers ==> v == w
  }

  lemma TwoWorkers(workers: set<WorkerId>) returns (v: WorkerId, w: WorkerId)
    requires |workers| >= 2
    ensures v in workers && w in workers && v != w
  {
    v :| v in workers;
    assert |workers - {v}| >= 1;
    w :| w in workers - {v};
  }

  lemma FewWorkers(workers: set<WorkerId>)
    requires |workers| <= 1
    ensures forall v, w :: v in workers && w in workers ==> v == w
  {
    forall v, w | v in workers && w in workers ensures v == w {
      if v != w {
        assert {v, w} <= workers;
        SubsetSize({v, w}, workers);
      }
    }
  }

  // ---------- no slot ----------

  /** The worker is idle or repairing. */
  predicate Rests(me: Worker) {
    me.Idle? || InPass(me)
  }

  ghost predicate AllRest(s: State) {
    forall w :: w in s.workers ==> Rests(s.workers[w])
  }

  lemma MoveRests(self: WorkerId, cap: int, sh: Shared, me: Worker, a: Action)
    requires WorkerCan(sh, me, a) && cap <= 0 && Rests(me)
    ensures Rests(WorkerMove(self, cap, sh, me, a).1)
  {
  }

  lemma StepRests(cfg: Config, s: State, step: Step)
    requires Enabled(s, step) && cfg.cap <= 0 && AllRest(s)
    ensures AllRest(Next(cfg, s, step))
  {
    if step.WorkerStep? {
      MoveRests(step.w, cfg.cap, s.sh, s.workers[step.w], step.a);
    }
  }

  lemma {:induction false} RunRests(cfg: Config, s: State, steps: seq<Step>)
    requires IsRun(cfg, s, steps) && cfg.cap <= 0 && AllRest(s)
    ensures AllRest(Run(cfg, s, steps))
    decreases |steps|
  {
    if steps != [] {
      StepRests(cfg, s, steps[0]);
      RunRests(cfg, Next(cfg, s, steps[0]), steps[1..]);
    }
  }

  // ---------- a lease of one's own ----------

  /** A worker about to DELETE a lease finds its own token there, if there is any lease. */
  predicate DeletesOwn(sh: Shared, me: Worker) {
    me.Deleting? && me.id in sh.leases ==> sh.leases[me.id] == me.token
  }

  ghost predicate AllDeleteOwn(s: State) {
    forall w :: w in s.workers ==> DeletesOwn(s.sh, s.workers[w])
  }

  lemma MoveDeletesOwn(self: WorkerId, cap: int, sh: Shared, me: Worker, a: Action)
    requires WorkerCan(sh, me, a) && DeletesOwn(sh, me)
    ensures var (sh', me') := WorkerMove(self, cap, sh, me, a); DeletesOwn(sh', me')
  {
  }

  lemma {:induction false} RunDeletesOwn(cfg: Config, s: State, steps: seq<Step>)
    requires IsRun(cfg, s, steps) && Single(cfg, s) && AllDeleteOwn(s)
    ensures AllDeleteOwn(Run(cfg, s, steps))
    decreases |steps|
  {
    if steps != [] {
      var step := steps[0];
      if step.WorkerStep? {
        MoveDeletesOwn(step.w, cfg.cap, s.sh, s.workers[step.w], step.a);
      }
      RunDeletesOwn(cfg, Next(cfg, s, step), steps[1..]);
    }
  }

  ghost predicate NoRivalDeleted(cfg: Config) {
    forall steps :: IsRun(cfg, Init(cfg), steps) ==> AllDeleteOwn(Run(cfg, Init(cfg), steps))
  }

  /** In all runs `release_lease` removes nothing but its own lease, exactly when there is
      at most one worker (or no slot at all). */
  lemma OwnLeaseIff(cfg: Config)
    ensures NoRivalDeleted(cfg) <==> |cfg.workers| <= 1 || cfg.cap <= 0
  {
    if cfg.cap <= 0 {
      forall steps | IsRun(cfg, Init(cfg), steps) ensures AllDeleteOwn(Run(cfg, Init(cfg), steps)) {
        RunRests(cfg, Init(cfg), steps);
      }
    } else if |cfg.workers| <= 1 {
      FewWorkers(cfg.workers);
      forall steps | IsRun(cfg, Init(cfg), steps) ensures AllDeleteOwn(Run(cfg, Init(cfg), steps)) {
        RunDeletesOwn(cfg, Init(cfg), steps);
      }
    } else {
      var v, w := TwoWorkers(cfg.workers);
      var s, id := RivalLeaseDeleted(cfg, w, v, Token("mine"), Token("theirs"));
      assert Token("mine").hex[0] != Token("theirs").hex[0];
      assert !DeletesOwn(s.sh, s.workers[w]);
      var steps :| TameRun(cfg, Init(cfg), steps, true, s);
    }
  }

  // ---------- the terminal event comes last ----------

  /** Nothing follows a task's terminal event. */
  predicate EndIsLast(log: seq<Event>) {
    forall i, j :: 0 <= i < j < |log| && log[i].taskId == log[j].taskId ==> !Closes(log[i])
  }

  lemma {:induction false} NoEarlyEnd(log: seq<Event>, t: TaskId)
    requires Endings(log, t) == []
    ensures forall i :: 0 <= i < |log| && log[i].taskId == t ==> !Closes(log[i])
    decreases |log|
  {
    if log != [] {
      NoEarlyEnd(log[..|log| - 1], t);
      assert log == log[..|log| - 1] + [log[|log| - 1]];
    }
  }

  /** A new event is the terminal one of a task that was not over, or an appended one. */
  lemma NewEvent(db: Db, c: Call) returns (news: seq<Event>)
    requires Proper(c)
    ensures Exec(db, c).log == db.log + news && |news| <= 1
    ensures news != [] && Closes(news[0]) ==>
              news[0].taskId in db.tasks && !IsTerminal(db.tasks[news[0].taskId].status)
    ensures news != [] && !Closes(news[0]) ==> c.DoAppend? && news[0].taskId == c.id
  {
    news := LogStep(db, c);
    if news != [] {
      assert Exec(db, c).log[|db.log|] == news[0];
    }
  }

  lemma EndStaysLast(log: seq<Event>, news: seq<Event>)
    requires EndIsLast(log) && |news| <= 1
    requires news != [] ==> forall i :: 0 <= i < |log| && log[i].taskId == news[0].taskId ==> !Closes(log[i])
    ensures EndIsLast(log + news)
  {
  }

  /** A task that is not over has no terminal event yet. */
  lemma OpenHasNoEnd(db: Db, t: TaskId)
    requires Sound(db) && t in db.tasks && !IsTerminal(db.tasks[t].status)
    ensures forall i :: 0 <= i < |db.log| && db.log[i].taskId == t ==> !Closes(db.log[i])
  {
    assert Accounted(Endings(db.log, t), db.tasks[t]);
    NoEarlyEnd(db.log, t);
  }

  lemma CallEndsLast(db: Db, c: Call)
    requires Sound(db) && Proper(c) && EndIsLast(db.log)
    requires c.DoAppend? ==> c.id in db.tasks && !IsTerminal(db.tasks[c.id].status)
    ensures EndIsLast(Exec(db, c).log)
  {
    var news := NewEvent(db, c);
    if news != [] {
      OpenHasNoEnd(db, news[0].taskId);
    }
    EndStaysLast(db.log, news);
  }

  /** The attempt that a worker is on is the one that the row runs. */
  predicate OnTheRow(db: Db, me: Worker) {
    me.Attempting? ==> RunsAttempt(db, me.task.id, me.task.attempt)
  }

  ghost predicate AllOnTheRow(s: State) {
    forall w :: w in s.workers ==> OnTheRow(s.sh.db, s.workers[w])
  }

  lemma MoveOnTheRow(self: WorkerId, cap: int, sh: Shared, me: Worker, a: Action)
    requires WorkerCan(sh, me, a) && Keyed(sh.db.tasks) && OnTheRow(sh.db, me)
    ensures var (sh', me') := WorkerMove(self, cap, sh, me, a); OnTheRow(sh'.db, me')
  {
  }

  lemma RequestLeavesRunning(db: Db, c: Call, t: TaskId, n: nat)
    requires Keyed(db.tasks) && (c.DoCreate? || c.DoCancelQueued? || c.DoRequestCancel?) && RunsAttempt(db, t, n)
    ensures RunsAttempt(Exec(db, c), t, n)
  {
  }

  lemma StepOnTheRow(cfg: Config, s: State, step: Step)
    requires Keyed(s.sh.db.tasks) && Enabled(s, step) && Single(cfg, s) && AllOnTheRow(s)
    ensures Single(cfg, Next(cfg, s, step)) && AllOnTheRow(Next(cfg, s, step))
  {
    var s' := Next(cfg, s, step);
    if step.WorkerStep? {
      MoveOnTheRow(step.w, cfg.cap, s.sh, s.workers[step.w], step.a);
    } else {
      forall w | w in s'.workers ensures OnTheRow(s'.sh.db, s'.workers[w]) {
        RequestsLeaveRow(cfg, s, step, s.workers[w]);
      }
    }
  }

  lemma RequestsLeaveRow(cfg: Config, s: State, step: Step, me: Worker)
    requires Keyed(s.sh.db.tasks) && Enabled(s, step) && !step.WorkerStep? && OnTheRow(s.sh.db, me)
    ensures OnTheRow(Next(cfg, s, step).sh.db, me)
  {
    if me.Attempting? {
      match step
      case Submit(_, id, prompt, key, maxAttempts) =>
        RequestLeavesRunning(s.sh.db, DoCreate(id, prompt, key, maxAttempts), me.task.id, me.task.attempt);
      case HandlerStep(h) =>
        HandlerDoes(s.sh, s.handlers[h]);
        if HandlerCall(s.handlers[h]) != [] {
          RequestLeavesRunning(s.sh.db, HandlerCall(s.handlers[h])[0], me.task.id, me.task.attempt);
        }
      case _ =>
    }
  }

  /** A worker appends only to the task of its attempt, and no request appends. */
  lemma AppendsOwn(s: State, step: Step)
    requires Enabled(s, step) && StepCall(s, step) != [] && StepCall(s, step)[0].DoAppend?
    ensures step.WorkerStep? && s.workers[step.w].Attempting?
    ensures s.workers[step.w].task.id == StepCall(s, step)[0].id
    ensures !s.workers[step.w].stage.UsageDue? && !s.workers[step.w].stage.FinishDue?
  {
  }

  lemma StepEndsLast(cfg: Config, s: State, step: Step)
    requires Inv(s) && Enabled(s, step) && AllOnTheRow(s) && EndIsLast(s.sh.db.log)
    ensures EndIsLast(Next(cfg, s, step).sh.db.log)
  {
    StepIsCall(cfg, s, step);
    if StepCall(s, step) != [] {
      if StepCall(s, step)[0].DoAppend? {
        AppendsOwn(s, step);
        assert OnTheRow(s.sh.db, s.workers[step.w]);
      }
      CallEndsLast(s.sh.db, StepCall(s, step)[0]);
    }
  }

  /** Either there is one worker, and it is on the row, or no worker is on any. */
  ghost predicate Orderly(cfg: Config, s: State) {
    (Single(cfg, s) && AllOnTheRow(s)) || (cfg.cap <= 0 && AllRest(s))
  }

  lemma {:induction false} RunEndsLast(cfg: Config, s: State, steps: seq<Step>)
    requires IsRun(cfg, s, steps) && Inv(s) && Orderly(cfg, s) && EndIsLast(s.sh.db.log)
    ensures EndIsLast(Run(cfg, s, steps).sh.db.log)
    decreases |steps|
  {
    if steps != [] {
      StepEndsLast(cfg, s, steps[0]);
      if Single(cfg, s) && AllOnTheRow(s) {
        StepOnTheRow(cfg, s, steps[0]);
      } else {
        StepRests(cfg, s, steps[0]);
      }
      StepKeeps(cfg, s, steps[0]);
      RunEndsLast(cfg, Next(cfg, s, steps[0]), steps[1..]);
    }
  }

  ghost predicate EndAlwaysLast(cfg: Config) {
    forall steps :: IsRun(cfg, Init(cfg), steps) ==> EndIsLast(Run(cfg, Init(cfg), steps).sh.db.log)
  }

  /** In all runs the terminal event is the last of its task, exactly when there is at most
      one worker (or no slot at all). */
  lemma EndIsLastIff(cfg: Config)
    ensures EndAlwaysLast(cfg) <==> |cfg.workers| <= 1 || cfg.cap <= 0
  {
    if |cfg.workers| <= 1 || cfg.cap <= 0 {
      if |cfg.workers| <= 1 { FewWorkers(cfg.workers); }
      InitHolds(cfg);
      forall steps | IsRun(cfg, Init(cfg), steps) ensures EndIsLast(Run(cfg, Init(cfg), steps).sh.db.log) {
        RunEndsLast(cfg, Init(cfg), steps);
      }
    } else {
      var v, w := TwoWorkers(cfg.workers);
      var s, i, j := EventAfterTheEnd(cfg, w, v);
      assert !EndIsLast(s.sh.db.log);
      var steps :| TameRun(cfg, Init(cfg), steps, true, s);
    }
  }

  // ---------- a task that is over, from one state on ----------

  /** The worker may still append events of `t`. */
  predicate MayAppend(me: Worker, t: TaskId) {
    me.Attempting? && me.task.id == t && !me.stage.UsageDue? && !me.stage.FinishDue?
  }

  ghost predicate Silent(s: State, t: TaskId) {
    forall w :: w in s.workers ==> !MayAppend(s.workers[w], t)
  }

  predicate Over(db: Db, t: TaskId) {
    t in db.tasks && IsTerminal(db.tasks[t].status)
  }

  lemma MoveStaysSilent(self: WorkerId, cap: int, sh: Shared, me: Worker, a: Action, t: TaskId)
    requires WorkerCan(sh, me, a) && Keyed(sh.db.tasks) && Over(sh.db, t) && !MayAppend(me, t)
    ensures !MayAppend(WorkerMove(self, cap, sh, me, a).1, t)
  {
  }

  lemma CallLeavesStream(db: Db, c: Call, t: TaskId)
    requires Proper(c) && Over(db, t) && !(c.DoAppend? && c.id == t)
    ensures Over(Exec(db, c), t) && OfTask(Exec(db, c).log, t) == OfTask(db.log, t)
  {
    TerminalStep(db, c, t);
    var news := NewEvent(db, c);
    if news != [] {
      assert (db.log + news)[..|db.log|] == db.log;
    } else {
      assert db.log + news == db.log;
    }
  }

  lemma StepLeavesStream(cfg: Config, s: State, step: Step, t: TaskId)
    requires Inv(s) && Enabled(s, step) && Over(s.sh.db, t) && Silent(s, t)
    ensures var s' := Next(cfg, s, step);
            Over(s'.sh.db, t) && Silent(s', t) && OfTask(s'.sh.db.log, t) == OfTask(s.sh.db.log, t)
  {
    StepIsCall(cfg, s, step);
    if StepCall(s, step) != [] {
      if StepCall(s, step)[0].DoAppend? {
        AppendsOwn(s, step);
        assert !MayAppend(s.workers[step.w], t);
      }
      CallLeavesStream(s.sh.db, StepCall(s, step)[0], t);
    }
    if step.WorkerStep? {
      MoveStaysSilent(step.w, cfg.cap, s.sh, s.workers[step.w], step.a, t);
    }
  }

  lemma {:induction false} RunLeavesStream(cfg: Config, s: State, steps: seq<Step>, t: TaskId)
    requires IsRun(cfg, s, steps) && Inv(s) && Over(s.sh.db, t) && Silent(s, t)
    ensures OfTask(Run(cfg, s, steps).sh.db.log, t) == OfTask(s.sh.db.log, t)
    decreases |steps|
  {
    if steps != [] {
      StepLeavesStream(cfg, s, steps[0], t);
      StepKeeps(cfg, s, steps[0]);
      RunLeavesStream(cfg, Next(cfg, s, steps[0]), steps[1..], t);
    }
  }

  lemma AppendShows(log: seq<Event>, e: Event)
    ensures OfTask(log + [e], e.taskId) == OfTask(log, e.taskId) + [e]
  {
    assert (log + [e])[..|log|] == log;
  }

  /** The next step of a worker that may append is to append, or to publish first. */
  lemma Appends(self: WorkerId, cap: int, sh: Shared, me: Worker, t: TaskId)
    returns (acts: seq<Action>, sh': Shared, me': Worker)
    requires MayAppend(me, t)
    ensures Does(self, cap, sh, me, acts, sh', me')
    ensures |OfTask(sh'.db.log, t)| == |OfTask(sh.db.log, t)| + 1
    decreases me.stage.StartPublish? || me.stage.EmitPublish?
  {
    if me.stage.Starting? {
      AppendShows(sh.db.log, NextEvent(sh.db.log, t, me.task.attempt, JobStarted, StartedBody(me.task)));
      DoesOne(self, cap, sh, me, Advance);
      acts, sh', me' := [Advance], WorkerMove(self, cap, sh, me, Advance).0, WorkerMove(self, cap, sh, me, Advance).1;
    } else if me.stage.Working? {
      var a := Emit(LlmMessage, "");
      AppendShows(sh.db.log, NextEvent(sh.db.log, t, me.task.attempt, LlmMessage, Body("")));
      DoesOne(self, cap, sh, me, a);
      acts, sh', me' := [a], WorkerMove(self, cap, sh, me, a).0, WorkerMove(self, cap, sh, me, a).1;
    } else {
      var (sh1, me1) := WorkerMove(self, cap, sh, me, Advance);
      acts, sh', me' := Appends(self, cap, sh1, me1, t);
      DoesFirst(self, cap, sh, me, Advance, acts, sh', me');
      acts := [Advance] + acts;
    }
  }

  /** No later run adds an event of the task. */
  ghost predicate StreamIsClosed(cfg: Config, s: State, t: TaskId) {
    forall later :: IsRun(cfg, s, later) ==> OfTask(Run(cfg, s, later).sh.db.log, t) == OfTask(s.sh.db.log, t)
  }

  /** In any reachable state in which a task is over: its stream is complete, whatever comes
      later, exactly when no worker is still in the part of an attempt at it that emits. */
  lemma StreamIsClosedIff(cfg: Config, steps: seq<Step>, t: TaskId)
    requires IsRun(cfg, Init(cfg), steps) && Over(Run(cfg, Init(cfg), steps).sh.db, t)
    ensures var s := Run(cfg, Init(cfg), steps); StreamIsClosed(cfg, s, t) <==> Silent(s, t)
  {
    InitHolds(cfg);
    RunKeeps(cfg, Init(cfg), steps);
    var s := Run(cfg, Init(cfg), steps);
    if Silent(s, t) {
      forall later | IsRun(cfg, s, later)
        ensures OfTask(Run(cfg, s, later).sh.db.log, t) == OfTask(s.sh.db.log, t)
      {
        RunLeavesStream(cfg, s, later, t);
      }
    } else {
      var w :| w in s.workers && MayAppend(s.workers[w], t);
      var acts, sh', me' := Appends(w, cfg.cap, s.sh, s.workers[w], t);
      DoesIsRun(cfg, s, w, acts, sh', me');
      var later := WorkerSteps(w, acts);
      assert |OfTask(Run(cfg, s, later).sh.db.log, t)| != |OfTask(s.sh.db.log, t)|;
    }
  }
}

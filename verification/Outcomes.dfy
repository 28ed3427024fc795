/** From the agent loop to the row, the terminal event and the account: what an attempt
    reports is what is stored, announced and charged. */
module Outcomes {
  import opened Models
  import opened Database
  import opened History
  import opened System
  import opened SystemProof
  import opened Guarantees
  import opened Cancelling
  import opened Chats
  import Loop = AgentLoop
  import Exits

  // ---------- the report reaches the row and the event ----------

  /** A JSON value that is falsy stays out of the payload. */
  predicate ShownSummary(summary: Option<string>, shown: Option<string>) {
    shown == if summary.Some? && summary.value != "" then summary else None
  }

  predicate ShownUsage(usage: Option<Usage>, shown: Option<Usage>) {
    shown == if usage.Some? && usage.value != map[] then usage else None
  }

  /** The row and the terminal event tell this report of the row's attempt. */
  predicate Tells(row: Task, e: Event, r: Report) {
    && e.attempt == row.attempt && IsTerminal(row.status)
    && row.status == r.status && row.failureReason == r.reason && row.resultSummary == r.summary
    && e.payload.End? && e.payload.status == r.status && e.payload.reason == r.reason
    && ShownSummary(r.summary, e.payload.summary) && ShownUsage(r.usage, e.payload.usage)
    && e.payload.artifacts == r.artifacts
  }

  ghost predicate Reported<S(!new)>(row: Task, e: Event, play: Plays<S>) {
    exists stop, r :: Outcome(play(e.taskId, e.attempt), stop) == Some(r) && Tells(row, e, r)
  }

  /** A worker about to finish has its loop's report in hand. */
  ghost predicate Carrying<S(!new)>(me: Worker, play: Plays<S>) {
    me.Attempting? && (me.stage.UsageDue? || me.stage.FinishDue?) ==>
      Outcome(play(me.task.id, me.task.attempt), me.stop) == Some(me.stage.report)
  }

  ghost predicate IsReported<S(!new)>(db: Db, e: Event, play: Plays<S>) {
    IsFinish(e) ==> e.taskId in db.tasks && Reported(db.tasks[e.taskId], e, play)
  }

  ghost predicate AllReported<S(!new)>(s: State, play: Plays<S>) {
    && (forall w :: w in s.workers ==> Carrying(s.workers[w], play))
    && (forall i :: 0 <= i < |s.sh.db.log| ==> IsReported(s.sh.db, s.sh.db.log[i], play))
  }

  lemma MoveCarries<S(!new)>(self: WorkerId, cap: int, sh: Shared, me: Worker, a: Action, play: Plays<S>)
    requires WorkerCan(sh, me, a) && Carrying(me, play)
    requires a.Conclude? ==> Outcome(play(me.task.id, me.task.attempt), me.stop) == Some(a.report)
    ensures Carrying(WorkerMove(self, cap, sh, me, a).1, play)
  {
  }

  /** What has been reported of a row stays: nothing in it that was reported changes. */
  lemma OutcomeStays(db: Db, c: Call, t: TaskId)
    requires Keyed(db.tasks) && t in db.tasks && IsTerminal(db.tasks[t].status)
    ensures t in Exec(db, c).tasks
    ensures var row, row' := db.tasks[t], Exec(db, c).tasks[t];
            row'.status == row.status && row'.failureReason == row.failureReason
            && row'.resultSummary == row.resultSummary && row'.attempt == row.attempt
  {
  }

  lemma ReportedStays<S(!new)>(db: Db, c: Call, e: Event, play: Plays<S>)
    requires Keyed(db.tasks) && e.taskId in db.tasks && Reported(db.tasks[e.taskId], e, play)
    ensures e.taskId in Exec(db, c).tasks && Reported(Exec(db, c).tasks[e.taskId], e, play)
  {
    var stop, r :| Outcome(play(e.taskId, e.attempt), stop) == Some(r) && Tells(db.tasks[e.taskId], e, r);
    OutcomeStays(db, c, e.taskId);
    assert Tells(Exec(db, c).tasks[e.taskId], e, r);
  }

  /** A terminal write that wins stores and announces its report. */
  lemma FinishTells(db: Db, t: TaskId, n: nat, r: Report)
    requires IsTerminal(r.status) && Finish(db, t, n, r).1.Some?
    ensures var (db', e) := Finish(db, t, n, r);
            && t in db'.tasks && e.value.taskId == t && e.value.attempt == n
            && db'.log == db.log + [e.value] && Tells(db'.tasks[t], e.value, r)
  {
  }

  lemma NewFinish(db: Db, c: Call)
    requires Proper(c) && |Exec(db, c).log| > |db.log| && IsFinish(Exec(db, c).log[|db.log|])
    ensures c.DoFinish? && Finish(db, c.id, c.attempt, c.report).1.Some?
    ensures Exec(db, c) == Finish(db, c.id, c.attempt, c.report).0
  {
  }

  lemma NewReported<S(!new)>(cfg: Config, s: State, step: Step, play: Plays<S>)
    requires Inv(s) && Enabled(s, step) && (forall w :: w in s.workers ==> Carrying(s.workers[w], play))
    requires var log' := Next(cfg, s, step).sh.db.log; |log'| > |s.sh.db.log| && IsFinish(log'[|s.sh.db.log|])
    ensures var db' := Next(cfg, s, step).sh.db; var e := db'.log[|s.sh.db.log|];
            e.taskId in db'.tasks && Reported(db'.tasks[e.taskId], e, play)
  {
    StepIsCall(cfg, s, step);
    var c := StepCall(s, step)[0];
    NewFinish(s.sh.db, c);
    FinishesFrom(s, step);
    FinishTells(s.sh.db, c.id, c.attempt, c.report);
    assert Carrying(s.workers[step.w], play);
    var e := Next(cfg, s, step).sh.db.log[|s.sh.db.log|];
    assert Outcome(play(e.taskId, e.attempt), s.workers[step.w].stop) == Some(c.report);
  }

  lemma FinishesFrom(s: State, step: Step)
    requires Enabled(s, step) && StepCall(s, step) != [] && StepCall(s, step)[0].DoFinish?
    ensures step.WorkerStep? && s.workers[step.w].Attempting? && s.workers[step.w].stage.FinishDue?
    ensures var me, c := s.workers[step.w], StepCall(s, step)[0];
            me.task.id == c.id && me.task.attempt == c.attempt && me.stage.report == c.report
  {
  }

  lemma StepReports<S(!new)>(cfg: Config, s: State, step: Step, play: Plays<S>)
    requires Inv(s) && Enabled(s, step) && AllReported(s, play) && Plausible(s, step, play)
    ensures AllReported(Next(cfg, s, step), play)
  {
    WorkersCarry(cfg, s, step, play);
    EventsReported(cfg, s, step, play);
  }

  lemma EventsReported<S(!new)>(cfg: Config, s: State, step: Step, play: Plays<S>)
    requires Inv(s) && Enabled(s, step) && AllReported(s, play)
    ensures var db' := Next(cfg, s, step).sh.db;
            forall i :: 0 <= i < |db'.log| ==> IsReported(db', db'.log[i], play)
  {
    var db' := Next(cfg, s, step).sh.db;
    forall i | 0 <= i < |s.sh.db.log| ensures IsReported(db', s.sh.db.log[i], play) {
      if IsFinish(s.sh.db.log[i]) {
        OldReported(cfg, s, step, i, play);
      }
    }
    LogGrowsByOne(cfg, s, step);
    if |db'.log| > |s.sh.db.log| && IsFinish(db'.log[|s.sh.db.log|]) {
      NewReported(cfg, s, step, play);
    }
    AllAreReported(s.sh.db.log, db', play);
  }

  lemma AllAreReported<S(!new)>(log: seq<Event>, db': Db, play: Plays<S>)
    requires log <= db'.log && |db'.log| <= |log| + 1
    requires forall i :: 0 <= i < |log| ==> IsReported(db', log[i], play)
    requires |db'.log| > |log| ==> IsReported(db', db'.log[|log|], play)
    ensures forall i :: 0 <= i < |db'.log| ==> IsReported(db', db'.log[i], play)
  {
    assert forall i :: 0 <= i < |log| ==> db'.log[i] == log[i];
  }

  lemma OldReported<S(!new)>(cfg: Config, s: State, step: Step, i: nat, play: Plays<S>)
    requires Inv(s) && Enabled(s, step) && i < |s.sh.db.log| && s.sh.db.log[i].taskId in s.sh.db.tasks
    requires Reported(s.sh.db.tasks[s.sh.db.log[i].taskId], s.sh.db.log[i], play)
    ensures var db' := Next(cfg, s, step).sh.db; var e := s.sh.db.log[i];
            e.taskId in db'.tasks && Reported(db'.tasks[e.taskId], e, play)
  {
    StepIsCall(cfg, s, step);
    if StepCall(s, step) != [] {
      ReportedStays(s.sh.db, StepCall(s, step)[0], s.sh.db.log[i], play);
    }
  }

  lemma WorkersCarry<S(!new)>(cfg: Config, s: State, step: Step, play: Plays<S>)
    requires Enabled(s, step) && Plausible(s, step, play)
    requires forall w :: w in s.workers ==> Carrying(s.workers[w], play)
    ensures forall w :: w in Next(cfg, s, step).workers ==> Carrying(Next(cfg, s, step).workers[w], play)
  {
    if step.WorkerStep? {
      MoveCarries(step.w, cfg.cap, s.sh, s.workers[step.w], step.a, play);
    }
  }

  lemma {:induction false} RunReports<S(!new)>(cfg: Config, s: State, steps: seq<Step>, play: Plays<S>)
    requires IsRun(cfg, s, steps) && Inv(s) && AllReported(s, play) && Genuine(cfg, s, steps, play)
    ensures AllReported(Run(cfg, s, steps), play)
    decreases |steps|
  {
    if steps != [] {
      StepReports(cfg, s, steps[0], play);
      StepKeeps(cfg, s, steps[0]);
      RunReports(cfg, Next(cfg, s, steps[0]), steps[1..], play);
    }
  }

  /** In any run whose attempts end as their agent loops do: the terminal event that an
      attempt's own worker wrote, and for ever the row, tell status, reason, summary and
      artifacts of what the loop of the row's last attempt came to; the event also its usage. */
  lemma ReportIsStored<S(!new)>(cfg: Config, steps: seq<Step>, play: Plays<S>, i: nat)
    requires IsRun(cfg, Init(cfg), steps) && Genuine(cfg, Init(cfg), steps, play)
    requires i < |Run(cfg, Init(cfg), steps).sh.db.log| && IsFinish(Run(cfg, Init(cfg), steps).sh.db.log[i])
    ensures var db := Run(cfg, Init(cfg), steps).sh.db; var e := db.log[i];
            && e.taskId in db.tasks && e.attempt == db.tasks[e.taskId].attempt
            && exists stop, r :: Outcome(play(e.taskId, e.attempt), stop) == Some(r) && Tells(db.tasks[e.taskId], e, r)
  {
    InitHolds(cfg);
    RunReports(cfg, Init(cfg), steps, play);
    var db := Run(cfg, Init(cfg), steps).sh.db;
    assert IsReported(db, db.log[i], play);
    var stop, r :| Outcome(play(db.log[i].taskId, db.log[i].attempt), stop) == Some(r)
                   && Tells(db.tasks[db.log[i].taskId], db.log[i], r);
  }

  /** The last chat of an attempt. */
  function LastReply<S>(p: Play<S>): Loop.Reply
    requires Loop.RunSpec(p.world, p.stops, p.llm, p.maxSteps, p.prompt, p.box).0.asked != []
  {
    p.llm(|Loop.RunSpec(p.world, p.stops, p.llm, p.maxSteps, p.prompt, p.box).0.asked| - 1)
  }

  /** The stored summary is the model's last answer, stripped of its reasoning. */
  predicate IsAnswer<S>(summary: Option<string>, p: Play<S>) {
    && Loop.RunSpec(p.world, p.stops, p.llm, p.maxSteps, p.prompt, p.box).0.asked != []
    && LastReply(p).Chat? && LastReply(p).result.calls == []
    && summary == Some(Exits.TextOf(p.world, LastReply(p).result)) && summary != Some("")
  }

  lemma SuccessIsAnswer<S>(p: Play<S>, stop: Option<Reason>)
    requires Outcome(p, stop).Some? && Outcome(p, stop).value.status == Succeeded
    ensures IsAnswer(Outcome(p, stop).value.summary, p)
  {
    Exits.ExitIsExplained(p.world, p.stops, p.llm, p.maxSteps, p.prompt, p.box);
  }

  /** End to end: a task that succeeded has, in its row and in its terminal event, the text
      of the last answer that the model gave in its last attempt. */
  lemma AnswerIsStored<S(!new)>(cfg: Config, steps: seq<Step>, play: Plays<S>, t: TaskId)
    requires IsRun(cfg, Init(cfg), steps) && Genuine(cfg, Init(cfg), steps, play)
    requires var tasks := Run(cfg, Init(cfg), steps).sh.db.tasks; t in tasks && tasks[t].status == Succeeded
    ensures var db := Run(cfg, Init(cfg), steps).sh.db;
            && IsAnswer(db.tasks[t].resultSummary, play(t, db.tasks[t].attempt))
            && |Endings(db.log, t)| == 1 && Endings(db.log, t)[0].payload.End?
            && Endings(db.log, t)[0].payload.summary == db.tasks[t].resultSummary
  {
    var db := Run(cfg, Init(cfg), steps).sh.db;
    var i := FinishOf(cfg, steps, t);
    ReportIsStored(cfg, steps, play, i);
    var e := db.log[i];
    var stop, r :| Outcome(play(e.taskId, e.attempt), stop) == Some(r) && Tells(db.tasks[e.taskId], e, r);
    SuccessIsAnswer(play(e.taskId, e.attempt), stop);
  }

  lemma FinishOf(cfg: Config, steps: seq<Step>, t: TaskId) returns (i: nat)
    requires IsRun(cfg, Init(cfg), steps)
    requires var tasks := Run(cfg, Init(cfg), steps).sh.db.tasks; t in tasks && tasks[t].status == Succeeded
    ensures var db := Run(cfg, Init(cfg), steps).sh.db;
            && |Endings(db.log, t)| == 1 && i < |db.log| && db.log[i] == Endings(db.log, t)[0]
            && db.log[i].taskId == t && IsFinish(db.log[i])
  {
    var db := Run(cfg, Init(cfg), steps).sh.db;
    InitHolds(cfg);
    RunKeeps(cfg, Init(cfg), steps);
    OnlyFinishSucceeds(cfg, steps, t);
    i := PlaceOfEnding(db.log, t);
  }

  lemma PlaceOfEnding(log: seq<Event>, t: TaskId) returns (i: nat)
    requires Endings(log, t) != []
    ensures i < |log| && log[i] == Endings(log, t)[0] && log[i].taskId == t
  {
    EndingIsLogged(log, t);
    i :| 0 <= i < |log| && log[i] == Endings(log, t)[0];
  }

  /** Neither `fail_exhausted` nor `cancel_queued` makes a task succeed. */
  lemma OnlyFinishSucceeds(cfg: Config, steps: seq<Step>, t: TaskId)
    requires IsRun(cfg, Init(cfg), steps)
    requires var tasks := Run(cfg, Init(cfg), steps).sh.db.tasks; t in tasks && tasks[t].status == Succeeded
    ensures var db := Run(cfg, Init(cfg), steps).sh.db;
            |Endings(db.log, t)| == 1 && IsFinish(Endings(db.log, t)[0])
  {
    EndingTold(cfg, steps, t);
    ExactlyOnce(cfg, steps, [], t);
  }
}

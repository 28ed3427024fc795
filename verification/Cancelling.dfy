/** A cancel request takes effect: what the reaper saw is what the attempt ends with. */
module Cancelling {
  import opened Models
  import opened Database
  import opened History
  import opened System
  import opened SystemProof
  import opened Guarantees
  import opened Blocks
  import opened Stocked
  import opened Publishing

  // ---------- when the reaper fired ----------

  predicate OnAttempt(me: Worker, t: TaskId, n: nat) {
    me.Attempting? && me.task.id == t && me.task.attempt == n
  }

  /** The step is the reaper of attempt `n` of `t`, and it finds the row flagged or not. */
  ghost predicate FiresAt(s: State, step: Step, t: TaskId, n: nat, flagged: bool) {
    && step.WorkerStep? && step.a.Reap? && step.w in s.workers && OnAttempt(s.workers[step.w], t, n)
    && flagged == (t in s.sh.db.tasks && s.sh.db.tasks[t].cancelRequested)
  }

  ghost predicate FiredAtMoment(cfg: Config, steps: seq<Step>, a: nat, s: State, t: TaskId, n: nat, flagged: bool) {
    At(cfg, steps, a, s) && a < |steps| && FiresAt(s, steps[a], t, n, flagged)
  }

  /** At some moment of the run the reaper of attempt `n` fired while the row was so. */
  ghost predicate Fired(cfg: Config, steps: seq<Step>, t: TaskId, n: nat, flagged: bool) {
    exists a: nat, s :: FiredAtMoment(cfg, steps, a, s, t, n, flagged)
  }

  lemma FiredEarlier(cfg: Config, steps: seq<Step>, t: TaskId, n: nat, flagged: bool)
    requires steps != [] && Fired(cfg, steps[..|steps| - 1], t, n, flagged)
    ensures Fired(cfg, steps, t, n, flagged)
  {
    var init := steps[..|steps| - 1];
    var a: nat, s0 :| FiredAtMoment(cfg, init, a, s0, t, n, flagged);
    AtShorter(cfg, steps, a, s0);
    assert init[a] == steps[a];
    assert FiredAtMoment(cfg, steps, a, s0, t, n, flagged);
  }

  lemma FiredOnlyThen(cfg: Config, steps: seq<Step>, s: State, t: TaskId, n: nat, flagged: bool)
    requires steps != [] && At(cfg, steps, |steps| - 1, s) && Fired(cfg, steps, t, n, flagged)
    ensures Fired(cfg, steps[..|steps| - 1], t, n, flagged) || FiresAt(s, steps[|steps| - 1], t, n, flagged)
  {
    var init := steps[..|steps| - 1];
    var a: nat, s0 :| FiredAtMoment(cfg, steps, a, s0, t, n, flagged);
    if a < |init| {
      assert init[..a] == steps[..a] && init[a] == steps[a];
      assert FiredAtMoment(cfg, init, a, s0, t, n, flagged);
    }
  }

  lemma FiredLast(cfg: Config, steps: seq<Step>, s: State, t: TaskId, n: nat, flagged: bool)
    requires IsRun(cfg, Init(cfg), steps) && steps != [] && At(cfg, steps, |steps| - 1, s)
    ensures Fired(cfg, steps, t, n, flagged) <==>
            Fired(cfg, steps[..|steps| - 1], t, n, flagged) || FiresAt(s, steps[|steps| - 1], t, n, flagged)
  {
    if Fired(cfg, steps[..|steps| - 1], t, n, flagged) {
      FiredEarlier(cfg, steps, t, n, flagged);
    }
    if Fired(cfg, steps, t, n, flagged) {
      FiredOnlyThen(cfg, steps, s, t, n, flagged);
    }
    if FiresAt(s, steps[|steps| - 1], t, n, flagged) {
      assert FiredAtMoment(cfg, steps, |steps| - 1, s, t, n, flagged);
    }
  }

  // ---------- what is told ----------

  /** A worker's stop reason tells what its reaper found, if it fired. */
  ghost predicate StopTold(cfg: Config, steps: seq<Step>, t: TaskId, n: nat, stop: Option<Reason>) {
    && (Fired(cfg, steps, t, n, true) <==> stop == Some(UserCancelled))
    && (Fired(cfg, steps, t, n, false) <==> stop == Some(TimedOut))
  }

  ghost predicate WorkerTold(cfg: Config, steps: seq<Step>, me: Worker) {
    me.Attempting? ==> StopTold(cfg, steps, me.task.id, me.task.attempt, me.stop)
  }

  /** The outcome of an attempt that was not stopped: an answer, a model error, or the step
      limit. */
  predicate RanThrough(reason: Option<Reason>) {
    reason == None || reason == Some(ModelError) || reason == Some(MaxSteps)
  }

  /** The reason in the terminal event of an attempt tells the same. */
  ghost predicate EndTold(cfg: Config, steps: seq<Step>, t: TaskId, n: nat, status: Status, reason: Option<Reason>) {
    && (reason == Some(UserCancelled) ==> Fired(cfg, steps, t, n, true))
    && (reason == Some(TimedOut) ==> Fired(cfg, steps, t, n, false))
    && (Fired(cfg, steps, t, n, true) ==> RanThrough(reason) || (reason == Some(UserCancelled) && status == Cancelled))
    && (Fired(cfg, steps, t, n, false) ==> RanThrough(reason) || (reason == Some(TimedOut) && status == Failed))
    && !(Fired(cfg, steps, t, n, true) && Fired(cfg, steps, t, n, false))
    && (status == Cancelled <==> reason == Some(UserCancelled))
  }

  ghost predicate EventTold(cfg: Config, steps: seq<Step>, e: Event) {
    Closes(e) ==>
      if IsFinish(e) then EndTold(cfg, steps, e.taskId, e.attempt, e.payload.status, e.payload.reason)
      else e.payload == RETRIES_PAYLOAD || e.payload == CANCEL_PAYLOAD
  }

  ghost predicate AllTold(cfg: Config, steps: seq<Step>, s: State) {
    && (forall w :: w in s.workers ==> WorkerTold(cfg, steps, s.workers[w]))
    && (forall i :: 0 <= i < |s.sh.db.log| ==> EventTold(cfg, steps, s.sh.db.log[i]))
  }

  /** A reaper fires only in an attempt that has begun. */
  lemma FiredHasBegun(cfg: Config, steps: seq<Step>, t: TaskId, n: nat, flagged: bool)
    requires IsRun(cfg, Init(cfg), steps) && Fired(cfg, steps, t, n, flagged)
    ensures var tasks := Run(cfg, Init(cfg), steps).sh.db.tasks; t in tasks && n <= tasks[t].attempt
  {
    var a: nat, s :| FiredAtMoment(cfg, steps, a, s, t, n, flagged);
    AtIsInv(cfg, steps, a, s);
    FiresHasBegun(s, steps[a], t, n, flagged);
    AtGrows(cfg, steps, a, s);
  }

  lemma FiresHasBegun(s: State, step: Step, t: TaskId, n: nat, flagged: bool)
    requires Inv(s) && FiresAt(s, step, t, n, flagged)
    ensures t in s.sh.db.tasks && n <= s.sh.db.tasks[t].attempt
  {
    assert WorkerOk(s.sh.db, s.workers[step.w]);
  }

  lemma AtIsInv(cfg: Config, steps: seq<Step>, a: nat, s: State)
    requires At(cfg, steps, a, s)
    ensures Inv(s)
  {
    InitHolds(cfg);
    RunKeeps(cfg, Init(cfg), steps[..a]);
  }

  lemma AtGrows(cfg: Config, steps: seq<Step>, a: nat, s: State)
    requires IsRun(cfg, Init(cfg), steps) && At(cfg, steps, a, s)
    ensures Grows(s.sh.db, Run(cfg, Init(cfg), steps).sh.db)
  {
    AtIsInv(cfg, steps, a, s);
    RunSplits(cfg, Init(cfg), steps, a);
    RunGrows(cfg, s, steps[a..]);
  }

  // ---------- one step ----------

  /** The step is not the reaper of this attempt. */
  ghost predicate QuietFor(s: State, step: Step, e: Event) {
    !FiresAt(s, step, e.taskId, e.attempt, true) && !FiresAt(s, step, e.taskId, e.attempt, false)
  }

  /** Nobody's reaper can fire for an attempt that has finished. */
  lemma FinishedIsQuiet(s: State, step: Step)
    requires Inv(s) && Enabled(s, step)
    ensures forall i :: 0 <= i < |s.sh.db.log| && IsFinish(s.sh.db.log[i]) ==> QuietFor(s, step, s.sh.db.log[i])
  {
    if step.WorkerStep? && step.a.Reap? {
      ReapsUnfinished(s.sh, s.workers[step.w], step.a);
    }
  }

  lemma ReapsUnfinished(sh: Shared, me: Worker, a: Action)
    requires WorkerOk(sh.db, me) && WorkerCan(sh, me, a) && a.Reap?
    ensures NotFinished(sh.db.log, me.task.id, me.task.attempt)
  {
  }

  lemma OldEventTold(cfg: Config, steps: seq<Step>, s: State, e: Event)
    requires IsRun(cfg, Init(cfg), steps) && steps != [] && At(cfg, steps, |steps| - 1, s)
    requires EventTold(cfg, steps[..|steps| - 1], e)
    requires IsFinish(e) ==> QuietFor(s, steps[|steps| - 1], e)
    ensures EventTold(cfg, steps, e)
  {
    if IsFinish(e) {
      FiredLast(cfg, steps, s, e.taskId, e.attempt, true);
      FiredLast(cfg, steps, s, e.taskId, e.attempt, false);
    }
  }

  /** A worker that does not move is told nothing new. */
  lemma OtherTold(cfg: Config, steps: seq<Step>, s: State, w: WorkerId)
    requires IsRun(cfg, Init(cfg), steps) && steps != [] && At(cfg, steps, |steps| - 1, s)
    requires Inv(s) && w in s.workers && !(steps[|steps| - 1].WorkerStep? && steps[|steps| - 1].w == w)
    requires WorkerTold(cfg, steps[..|steps| - 1], s.workers[w])
    ensures WorkerTold(cfg, steps, s.workers[w])
  {
    var me, step := s.workers[w], steps[|steps| - 1];
    if me.Attempting? {
      FiredLast(cfg, steps, s, me.task.id, me.task.attempt, true);
      FiredLast(cfg, steps, s, me.task.id, me.task.attempt, false);
      if step.WorkerStep? && step.w in s.workers {
        assert !SameAttempt(me, s.workers[step.w]);
      }
    }
  }

  /** How the worker that moves stands to its attempt: the same attempt and stop, or its
      reaper has fired, or a fresh attempt. */
  predicate Proceeds(db: Db, me: Worker, a: Action, me': Worker) {
    me'.Attempting? ==>
      || (me.Attempting? && me'.task == me.task && me'.stop == me.stop && !a.Reap?)
      || (me.Attempting? && me'.task == me.task && a.Reap? && me.stop == None
          && me'.stop == Some(if CancelSeen(db, me.task.id) then UserCancelled else TimedOut))
      || (!me.Attempting? && me'.stop == None
          && (me'.task.id in db.tasks ==> me'.task.attempt > db.tasks[me'.task.id].attempt))
  }

  lemma MoveProceeds(self: WorkerId, cap: int, sh: Shared, me: Worker, a: Action)
    requires WorkerCan(sh, me, a) && Keyed(sh.db.tasks)
    ensures Proceeds(sh.db, me, a, WorkerMove(self, cap, sh, me, a).1)
  {
  }

  lemma NotFiredYet(cfg: Config, steps: seq<Step>, t: TaskId, n: nat)
    requires IsRun(cfg, Init(cfg), steps)
    requires var tasks := Run(cfg, Init(cfg), steps).sh.db.tasks; t in tasks ==> n > tasks[t].attempt
    ensures !Fired(cfg, steps, t, n, true) && !Fired(cfg, steps, t, n, false)
  {
    if Fired(cfg, steps, t, n, true) {
      FiredHasBegun(cfg, steps, t, n, true);
    }
    if Fired(cfg, steps, t, n, false) {
      FiredHasBegun(cfg, steps, t, n, false);
    }
  }

  lemma MoverTold(cfg: Config, steps: seq<Step>, s: State, w: WorkerId, a: Action)
    requires IsRun(cfg, Init(cfg), steps) && steps != [] && At(cfg, steps, |steps| - 1, s)
    requires IsRun(cfg, Init(cfg), steps[..|steps| - 1]) && Run(cfg, Init(cfg), steps[..|steps| - 1]) == s
    requires Inv(s) && steps[|steps| - 1] == WorkerStep(w, a) && Enabled(s, WorkerStep(w, a))
    requires WorkerTold(cfg, steps[..|steps| - 1], s.workers[w])
    ensures WorkerTold(cfg, steps, WorkerMove(w, cfg.cap, s.sh, s.workers[w], a).1)
  {
    var me := s.workers[w];
    var me' := WorkerMove(w, cfg.cap, s.sh, me, a).1;
    MoveProceeds(w, cfg.cap, s.sh, me, a);
    if me'.Attempting? {
      var t, n := me'.task.id, me'.task.attempt;
      FiredLast(cfg, steps, s, t, n, true);
      FiredLast(cfg, steps, s, t, n, false);
      if !me.Attempting? {
        NotFiredYet(cfg, steps[..|steps| - 1], t, n);
      }
    }
  }

  /** The terminal events that a call can add. */
  lemma NewEndings(db: Db, c: Call)
    requires Proper(c) && |Exec(db, c).log| > |db.log|
    ensures var e := Exec(db, c).log[|db.log|];
            Closes(e) ==>
              || (c.DoFinish? && e.taskId == c.id && e.attempt == c.attempt && e.payload == ReportPayload(c.report))
              || e.payload == RETRIES_PAYLOAD || e.payload == CANCEL_PAYLOAD
  {
  }

  lemma FinishTold(cfg: Config, steps: seq<Step>, t: TaskId, n: nat, stop: Option<Reason>, r: Report)
    requires StopTold(cfg, steps, t, n, stop) && Concludes(stop, r)
    requires stop == None || stop == Some(UserCancelled) || stop == Some(TimedOut)
    ensures EndTold(cfg, steps, t, n, r.status, r.reason)
  {
  }

  lemma FinishesOwn(s: State, step: Step)
    requires Inv(s) && Enabled(s, step) && StepCall(s, step) != [] && StepCall(s, step)[0].DoFinish?
    ensures step.WorkerStep? && step.a.Advance? && s.workers[step.w].Attempting?
    ensures var me, c := s.workers[step.w], StepCall(s, step)[0];
            && me.task.id == c.id && me.task.attempt == c.attempt && Concludes(me.stop, c.report)
            && (me.stop == None || me.stop == Some(UserCancelled) || me.stop == Some(TimedOut))
  {
    assert step.WorkerStep? ==> WorkerOk(s.sh.db, s.workers[step.w]);
  }

  lemma NewEventTold(cfg: Config, steps: seq<Step>, s: State)
    requires IsRun(cfg, Init(cfg), steps) && steps != [] && At(cfg, steps, |steps| - 1, s)
    requires Inv(s) && Enabled(s, steps[|steps| - 1])
    requires forall w :: w in s.workers ==> WorkerTold(cfg, steps[..|steps| - 1], s.workers[w])
    requires |Next(cfg, s, steps[|steps| - 1]).sh.db.log| > |s.sh.db.log|
    ensures EventTold(cfg, steps, Next(cfg, s, steps[|steps| - 1]).sh.db.log[|s.sh.db.log|])
  {
    var step := steps[|steps| - 1];
    StepIsCall(cfg, s, step);
    var c := StepCall(s, step)[0];
    NewEndings(s.sh.db, c);
    if c.DoFinish? {
      FinishesOwn(s, step);
      var me := s.workers[step.w];
      FiredLast(cfg, steps, s, c.id, c.attempt, true);
      FiredLast(cfg, steps, s, c.id, c.attempt, false);
      FinishTold(cfg, steps, c.id, c.attempt, me.stop, c.report);
    }
  }

  lemma {:induction false} RunTells(cfg: Config, steps: seq<Step>)
    requires IsRun(cfg, Init(cfg), steps)
    ensures AllTold(cfg, steps, Run(cfg, Init(cfg), steps))
    decreases |steps|
  {
    if steps != [] {
      var n := |steps| - 1;
      var s := LastStep(cfg, steps);
      RunTells(cfg, steps[..n]);
      AtTheEnd(cfg, steps[..n]);
      AtShorter(cfg, steps, n, s);
      EventsTold(cfg, steps, s);
      WorkersTold(cfg, steps, s);
    }
  }

  lemma OldEventsTold(cfg: Config, steps: seq<Step>, s: State)
    requires IsRun(cfg, Init(cfg), steps) && steps != [] && At(cfg, steps, |steps| - 1, s)
    requires Inv(s) && Enabled(s, steps[|steps| - 1])
    requires forall i :: 0 <= i < |s.sh.db.log| ==> EventTold(cfg, steps[..|steps| - 1], s.sh.db.log[i])
    ensures forall i :: 0 <= i < |s.sh.db.log| ==> EventTold(cfg, steps, s.sh.db.log[i])
  {
    FinishedIsQuiet(s, steps[|steps| - 1]);
    forall i | 0 <= i < |s.sh.db.log| ensures EventTold(cfg, steps, s.sh.db.log[i]) {
      OldEventTold(cfg, steps, s, s.sh.db.log[i]);
    }
  }

  lemma EventsTold(cfg: Config, steps: seq<Step>, s: State)
    requires IsRun(cfg, Init(cfg), steps) && steps != [] && At(cfg, steps, |steps| - 1, s)
    requires Inv(s) && Enabled(s, steps[|steps| - 1]) && AllTold(cfg, steps[..|steps| - 1], s)
    ensures var log' := Next(cfg, s, steps[|steps| - 1]).sh.db.log;
            forall i :: 0 <= i < |log'| ==> EventTold(cfg, steps, log'[i])
  {
    OldEventsTold(cfg, steps, s);
    LogGrowsByOne(cfg, s, steps[|steps| - 1]);
    var log' := Next(cfg, s, steps[|steps| - 1]).sh.db.log;
    if |log'| > |s.sh.db.log| {
      NewEventTold(cfg, steps, s);
    }
    AllEventsTold(cfg, steps, s.sh.db.log, log');
  }

  lemma AllEventsTold(cfg: Config, steps: seq<Step>, log: seq<Event>, log': seq<Event>)
    requires log <= log' && |log'| <= |log| + 1
    requires forall i :: 0 <= i < |log| ==> EventTold(cfg, steps, log[i])
    requires |log'| > |log| ==> EventTold(cfg, steps, log'[|log|])
    ensures forall i :: 0 <= i < |log'| ==> EventTold(cfg, steps, log'[i])
  {
    assert forall i :: 0 <= i < |log| ==> log'[i] == log[i];
  }

  lemma WorkersTold(cfg: Config, steps: seq<Step>, s: State)
    requires IsRun(cfg, Init(cfg), steps) && steps != [] && At(cfg, steps, |steps| - 1, s)
    requires IsRun(cfg, Init(cfg), steps[..|steps| - 1]) && Run(cfg, Init(cfg), steps[..|steps| - 1]) == s
    requires Inv(s) && Enabled(s, steps[|steps| - 1]) && AllTold(cfg, steps[..|steps| - 1], s)
    ensures var s' := Next(cfg, s, steps[|steps| - 1]);
            forall w :: w in s'.workers ==> WorkerTold(cfg, steps, s'.workers[w])
  {
    var step := steps[|steps| - 1];
    var s' := Next(cfg, s, step);
    forall w | w in s'.workers ensures WorkerTold(cfg, steps, s'.workers[w]) {
      if step.WorkerStep? && step.w == w {
        MoverTold(cfg, steps, s, w, step.a);
      } else {
        OtherTold(cfg, steps, s, w);
      }
    }
  }

  // ---------- the outcome ----------

  /** In every run, for the terminal event that an attempt's own worker wrote:
      - if its reaper fired while the row was flagged, the attempt ran through by itself or
        the task is `cancelled` for `cancelled`;
      - if it fired while the row was not flagged, it ran through or failed for `timeout`;
      - and those reasons are given in no other case. */
  lemma StopsForWhatWasSeen(cfg: Config, steps: seq<Step>, i: nat)
    requires IsRun(cfg, Init(cfg), steps)
    requires i < |Run(cfg, Init(cfg), steps).sh.db.log| && IsFinish(Run(cfg, Init(cfg), steps).sh.db.log[i])
    ensures var s := Run(cfg, Init(cfg), steps); var e := s.sh.db.log[i];
            var flagged := Fired(cfg, steps, e.taskId, e.attempt, true);
            var free := Fired(cfg, steps, e.taskId, e.attempt, false);
            && (flagged ==> RanThrough(e.payload.reason)
                            || (e.payload.status == Cancelled && e.payload.reason == Some(UserCancelled)))
            && (free ==> RanThrough(e.payload.reason)
                         || (e.payload.status == Failed && e.payload.reason == Some(TimedOut)))
            && (e.payload.status == Cancelled || e.payload.reason == Some(UserCancelled) ==> flagged)
            && (e.payload.reason == Some(TimedOut) ==> free && !flagged)
  {
    RunTells(cfg, steps);
    var s := Run(cfg, Init(cfg), steps);
    assert EventTold(cfg, steps, s.sh.db.log[i]);
  }

  /** A worker still on its attempt stops, if it does, for what its reaper saw: its stop
      reason is `cancelled` exactly if the reaper found the flag, `timeout` exactly if it
      fired without. */
  lemma WillStopForWhatWasSeen(cfg: Config, steps: seq<Step>)
    requires IsRun(cfg, Init(cfg), steps)
    ensures var s := Run(cfg, Init(cfg), steps);
            forall w :: w in s.workers && s.workers[w].Attempting? ==>
              var me := s.workers[w];
              && (Fired(cfg, steps, me.task.id, me.task.attempt, true) <==> me.stop == Some(UserCancelled))
              && (Fired(cfg, steps, me.task.id, me.task.attempt, false) <==> me.stop == Some(TimedOut))
  {
    RunTells(cfg, steps);
    var s := Run(cfg, Init(cfg), steps);
    assert forall w :: w in s.workers ==> WorkerTold(cfg, steps, s.workers[w]);
  }

  predicate Withdrew(es: seq<Event>) {
    es != [] && es[0].payload == CANCEL_PAYLOAD
  }

  ghost predicate SomeFired(cfg: Config, steps: seq<Step>, t: TaskId, flagged: bool) {
    exists n :: Fired(cfg, steps, t, n, flagged)
  }

  lemma EndingTold(cfg: Config, steps: seq<Step>, t: TaskId)
    requires IsRun(cfg, Init(cfg), steps) && t in Run(cfg, Init(cfg), steps).sh.db.tasks
    requires IsTerminal(Run(cfg, Init(cfg), steps).sh.db.tasks[t].status)
    ensures var db := Run(cfg, Init(cfg), steps).sh.db;
            && Endings(db.log, t) != [] && Announces(Endings(db.log, t)[0], db.tasks[t])
            && Endings(db.log, t)[0].taskId == t && Closes(Endings(db.log, t)[0])
            && EventTold(cfg, steps, Endings(db.log, t)[0])
  {
    RunTells(cfg, steps);
    InitHolds(cfg);
    RunKeeps(cfg, Init(cfg), steps);
    var db := Run(cfg, Init(cfg), steps).sh.db;
    assert Accounted(Endings(db.log, t), db.tasks[t]);
    EndingIsLogged(db.log, t);
    var i :| 0 <= i < |db.log| && db.log[i] == Endings(db.log, t)[0];
    assert EventTold(cfg, steps, db.log[i]);
  }

  /** And in the row: `timeout` means that a reaper fired and found no flag; `cancelled`
      means that one found a flag, or that the task was withdrawn while it was queued. */
  lemma RowTellsWhatWasSeen(cfg: Config, steps: seq<Step>, t: TaskId)
    requires IsRun(cfg, Init(cfg), steps) && t in Run(cfg, Init(cfg), steps).sh.db.tasks
    requires IsTerminal(Run(cfg, Init(cfg), steps).sh.db.tasks[t].status)
    ensures var row := Run(cfg, Init(cfg), steps).sh.db.tasks[t];
            && (row.failureReason == Some(TimedOut) ==> SomeFired(cfg, steps, t, false))
            && (row.status == Cancelled ==> row.failureReason == Some(UserCancelled))
            && (row.status == Cancelled ==>
                  SomeFired(cfg, steps, t, true) || Withdrew(Endings(Run(cfg, Init(cfg), steps).sh.db.log, t)))
  {
    EndingTold(cfg, steps, t);
  }

  // ---------- the request is honoured ----------

  /** The report of an attempt that was stopped for a cancellation. */
  const CANCELLED_REPORT := Report(Cancelled, Some(UserCancelled), Some("stopped: cancelled"), None, Some([]))

  /** An attempt at work that has not been stopped, on a flagged row that still runs it. */
  predicate AtWork(sh: Shared, me: Worker) {
    && me.Attempting? && me.stop == None && !me.stage.UsageDue? && !me.stage.FinishDue?
    && RunsAttempt(sh.db, me.task.id, me.task.attempt) && sh.db.tasks[me.task.id].cancelRequested
  }

  predicate EndedCancelled(sh: Shared, t: TaskId) {
    t in sh.db.tasks && sh.db.tasks[t].status == Cancelled && sh.db.tasks[t].failureReason == Some(UserCancelled)
  }

  lemma ReapsConcludesFinishes(self: WorkerId, cap: int, sh: Shared, me: Worker)
    returns (acts: seq<Action>, sh': Shared, me': Worker)
    requires AtWork(sh, me) && me.stage.Working?
    ensures Does(self, cap, sh, me, acts, sh', me') && EndedCancelled(sh', me.task.id)
    ensures forall i :: 0 <= i < |acts| ==> !acts[i].Crash?
  {
    var (sh1, me1) := WorkerMove(self, cap, sh, me, Reap(false));
    var (sh2, me2) := WorkerMove(self, cap, sh1, me1, Conclude(CANCELLED_REPORT));
    sh', me' := WorkerMove(self, cap, sh2, me2, Advance).0, WorkerMove(self, cap, sh2, me2, Advance).1;
    DoesOne(self, cap, sh2, me2, Advance);
    DoesFirst(self, cap, sh1, me1, Conclude(CANCELLED_REPORT), [Advance], sh', me');
    acts := [Conclude(CANCELLED_REPORT)] + [Advance];
    DoesFirst(self, cap, sh, me, Reap(false), acts, sh', me');
    acts := [Reap(false)] + acts;
  }

  /** From there the worker alone can bring the row to `cancelled`. */
  lemma {:induction false} CancelCanWin(self: WorkerId, cap: int, sh: Shared, me: Worker)
    returns (acts: seq<Action>, sh': Shared, me': Worker)
    requires AtWork(sh, me)
    ensures Does(self, cap, sh, me, acts, sh', me') && EndedCancelled(sh', me.task.id)
    ensures forall i :: 0 <= i < |acts| ==> !acts[i].Crash?
    decreases if me.stage.Starting? then 2 else if me.stage.Working? then 0 else 1
  {
    if me.stage.Working? {
      acts, sh', me' := ReapsConcludesFinishes(self, cap, sh, me);
    } else {
      var (sh1, me1) := WorkerMove(self, cap, sh, me, Advance);
      acts, sh', me' := CancelCanWin(self, cap, sh1, me1);
      DoesFirst(self, cap, sh, me, Advance, acts, sh', me');
      acts := [Advance] + acts;
    }
  }

  /** From any reachable state in which a worker is at such an attempt, a run of that worker
      alone ends with the row cancelled, and the reaper has seen the flag. */
  lemma CancelIsHonoured(cfg: Config, steps: seq<Step>, w: WorkerId) returns (more: seq<Step>)
    requires IsRun(cfg, Init(cfg), steps)
    requires var s := Run(cfg, Init(cfg), steps); w in s.workers && AtWork(s.sh, s.workers[w])
    ensures IsRun(cfg, Run(cfg, Init(cfg), steps), more)
    ensures forall i :: 0 <= i < |more| ==> more[i].WorkerStep? && more[i].w == w && !more[i].a.Crash?
    ensures var s := Run(cfg, Init(cfg), steps);
            EndedCancelled(Run(cfg, s, more).sh, s.workers[w].task.id)
  {
    var s := Run(cfg, Init(cfg), steps);
    var acts, sh', me' := CancelCanWin(w, cfg.cap, s.sh, s.workers[w]);
    DoesIsRun(cfg, s, w, acts, sh', me');
    more := WorkerSteps(w, acts);
  }

  // ---------- the request is answered ----------

  predicate OverOrFlagged(db: Db, t: TaskId) {
    t in db.tasks && (IsTerminal(db.tasks[t].status) || db.tasks[t].cancelRequested)
  }

  /** How far a cancel request for `t` has come. */
  predicate Heeding(db: Db, me: Handler, t: TaskId) {
    match me
    case Submitted(_) => false
    case Cancelling(id) => id == t && t in db.tasks
    case Flagging(id) => id == t && t in db.tasks
    case CancelPublish(_) => OverOrFlagged(db, t)
    case Answered => OverOrFlagged(db, t)
  }

  lemma CallKeepsHeeding(db: Db, c: Call, me: Handler, t: TaskId)
    requires Keyed(db.tasks) && Proper(c) && Heeding(db, me, t)
    ensures Heeding(Exec(db, c), me, t)
  {
    CallGrows(db, c);
    ChangeMovesRow(db, c, t);
  }

  lemma MoveHeeds(sh: Shared, me: Handler, t: TaskId)
    requires Keyed(sh.db.tasks) && Heeding(sh.db, me, t)
    ensures var (sh', me') := HandlerMove(sh, me); Heeding(sh'.db, me', t)
  {
  }

  lemma StepHeeds(cfg: Config, s: State, step: Step, h: nat, t: TaskId)
    requires Inv(s) && Enabled(s, step) && h in s.handlers && Heeding(s.sh.db, s.handlers[h], t)
    ensures var s' := Next(cfg, s, step); h in s'.handlers && Heeding(s'.sh.db, s'.handlers[h], t)
  {
    if step.HandlerStep? && step.h == h {
      MoveHeeds(s.sh, s.handlers[h], t);
    } else {
      StepIsCall(cfg, s, step);
      if StepCall(s, step) != [] {
        CallKeepsHeeding(s.sh.db, StepCall(s, step)[0], s.handlers[h], t);
      }
      OtherRequestStays(cfg, s, step, h);
    }
  }

  lemma OtherRequestStays(cfg: Config, s: State, step: Step, h: nat)
    requires Enabled(s, step) && h in s.handlers && !(step.HandlerStep? && step.h == h)
    ensures h in Next(cfg, s, step).handlers && Next(cfg, s, step).handlers[h] == s.handlers[h]
  {
  }

  lemma {:induction false} RunHeeds(cfg: Config, s: State, steps: seq<Step>, h: nat, t: TaskId)
    requires IsRun(cfg, s, steps) && Inv(s) && h in s.handlers && Heeding(s.sh.db, s.handlers[h], t)
    ensures var s' := Run(cfg, s, steps); h in s'.handlers && Heeding(s'.sh.db, s'.handlers[h], t)
    decreases |steps|
  {
    if steps != [] {
      StepHeeds(cfg, s, steps[0], h, t);
      StepKeeps(cfg, s, steps[0]);
      RunHeeds(cfg, Next(cfg, s, steps[0]), steps[1..], h, t);
    }
  }

  /** A cancel request for an existing task, made at any moment of any run and answered,
      has ended the task or set its flag, whatever happened meanwhile. */
  lemma AnsweredCancelIsHeeded(cfg: Config, steps: seq<Step>, h: nat, t: TaskId, later: seq<Step>)
    requires IsRun(cfg, Init(cfg), steps) && Enabled(Run(cfg, Init(cfg), steps), AskCancel(h, t))
    requires t in Run(cfg, Init(cfg), steps).sh.db.tasks
    requires IsRun(cfg, Next(cfg, Run(cfg, Init(cfg), steps), AskCancel(h, t)), later)
    ensures var end := Run(cfg, Next(cfg, Run(cfg, Init(cfg), steps), AskCancel(h, t)), later);
            && h in end.handlers && t in end.sh.db.tasks
            && (end.handlers[h] == Answered ==>
                  IsTerminal(end.sh.db.tasks[t].status) || end.sh.db.tasks[t].cancelRequested)
  {
    InitHolds(cfg);
    RunKeeps(cfg, Init(cfg), steps);
    var s := Run(cfg, Init(cfg), steps);
    StepKeeps(cfg, s, AskCancel(h, t));
    RunHeeds(cfg, Next(cfg, s, AskCancel(h, t)), later, h, t);
  }
}

/** What an attempt is charged is what its terminal event says it used. */
module Bills {
  import opened Models
  import opened Database
  import opened History
  import opened System
  import opened SystemProof
  import opened Guarantees
  import opened Publishing
  import opened Accounting

  function UsageOf(usage: Option<Usage>): Usage {
    if usage.Some? then usage.value else map[]
  }

  /** The tokens that a step charges for attempt `n` of `t`. */
  ghost function BillFor(s: State, step: Step, t: TaskId, n: nat, name: string): int
    requires Enabled(s, step)
  {
    if BillsAttempt(s, step, t, n) then Tokens(s.workers[step.w].stage.usage, name) else 0
  }

  /** All that a run charges for it. */
  ghost function BilledFor(cfg: Config, s: State, steps: seq<Step>, t: TaskId, n: nat, name: string): int
    requires IsRun(cfg, s, steps)
    decreases |steps|
  {
    if steps == [] then 0
    else BillFor(s, steps[0], t, n, name) + BilledFor(cfg, Next(cfg, s, steps[0]), steps[1..], t, n, name)
  }

  lemma {:induction false} BilledLast(cfg: Config, s: State, steps: seq<Step>, t: TaskId, n: nat, name: string)
    requires IsRun(cfg, s, steps) && steps != []
    ensures IsRun(cfg, s, steps[..|steps| - 1])
    ensures var before := Run(cfg, s, steps[..|steps| - 1]);
            && Enabled(before, steps[|steps| - 1])
            && BilledFor(cfg, s, steps, t, n, name) ==
               BilledFor(cfg, s, steps[..|steps| - 1], t, n, name) + BillFor(before, steps[|steps| - 1], t, n, name)
    decreases |steps|
  {
    RunLast(cfg, s, steps);
    var rest := steps[1..];
    if rest == [] {
      assert steps[..0] == [];
    } else {
      BilledLast(cfg, Next(cfg, s, steps[0]), rest, t, n, name);
      var init := steps[..|steps| - 1];
      assert init[0] == steps[0] && init[1..] == rest[..|rest| - 1];
    }
  }

  /** What a worker at this stage has been charged so far, by its report. */
  function Owing(stage: Stage, name: string): int {
    if stage.FinishDue? then Tokens(UsageOf(stage.report.usage), name) else 0
  }

  /** The usage to charge is the report's. */
  predicate Consistent(me: Worker) {
    me.Attempting? && me.stage.UsageDue? ==> me.stage.report.usage == Some(me.stage.usage)
  }

  ghost predicate WorkerSquare(cfg: Config, steps: seq<Step>, me: Worker, name: string)
    requires IsRun(cfg, Init(cfg), steps)
  {
    Consistent(me)
    && (me.Attempting? ==>
          BilledFor(cfg, Init(cfg), steps, me.task.id, me.task.attempt, name) == Owing(me.stage, name))
  }

  ghost predicate EventSquare(cfg: Config, steps: seq<Step>, e: Event, name: string)
    requires IsRun(cfg, Init(cfg), steps)
  {
    IsFinish(e) ==>
      BilledFor(cfg, Init(cfg), steps, e.taskId, e.attempt, name) == Tokens(UsageOf(e.payload.usage), name)
  }

  ghost predicate NotBegun(s: State, t: TaskId, n: nat) {
    t in s.sh.db.tasks ==> n > s.sh.db.tasks[t].attempt
  }

  ghost predicate AllSquare(cfg: Config, steps: seq<Step>, s: State, name: string)
    requires IsRun(cfg, Init(cfg), steps)
  {
    && (forall w :: w in s.workers ==> WorkerSquare(cfg, steps, s.workers[w], name))
    && (forall i :: 0 <= i < |s.sh.db.log| ==> EventSquare(cfg, steps, s.sh.db.log[i], name))
    && (forall t, n :: NotBegun(s, t, n) ==> BilledFor(cfg, Init(cfg), steps, t, n, name) == 0)
  }

  // ---------- one step ----------

  lemma BillsOnlyBegun(s: State, step: Step, t: TaskId, n: nat, name: string)
    requires Inv(s) && Enabled(s, step) && NotBegun(s, t, n)
    ensures BillFor(s, step, t, n, name) == 0
  {
    assert step.WorkerStep? ==> WorkerOk(s.sh.db, s.workers[step.w]);
  }

  lemma BillsUnfinished(s: State, step: Step, e: Event, name: string)
    requires Enabled(s, step) && e in s.sh.db.log && IsFinish(e)
    requires step.WorkerStep? ==> WorkerOk(s.sh.db, s.workers[step.w])
    ensures BillFor(s, step, e.taskId, e.attempt, name) == 0
  {
    if step.WorkerStep? {
      BillerUnfinished(s.sh.db, s.workers[step.w], step.a, e);
    }
  }

  lemma BillerUnfinished(db: Db, me: Worker, a: Action, e: Event)
    requires WorkerOk(db, me) && e in db.log && IsFinish(e)
    ensures Bills(me, a) ==> !(me.task.id == e.taskId && me.task.attempt == e.attempt)
  {
  }

  lemma OtherIsSquare(cfg: Config, steps: seq<Step>, s: State, w: WorkerId, name: string)
    requires IsRun(cfg, Init(cfg), steps) && steps != [] && IsRun(cfg, Init(cfg), steps[..|steps| - 1])
    requires Run(cfg, Init(cfg), steps[..|steps| - 1]) == s && Inv(s)
    requires w in s.workers && !(steps[|steps| - 1].WorkerStep? && steps[|steps| - 1].w == w)
    requires WorkerSquare(cfg, steps[..|steps| - 1], s.workers[w], name)
    ensures WorkerSquare(cfg, steps, s.workers[w], name)
  {
    var me, step := s.workers[w], steps[|steps| - 1];
    if me.Attempting? {
      BilledLast(cfg, Init(cfg), steps, me.task.id, me.task.attempt, name);
      assert step.WorkerStep? ==> !SameAttempt(me, s.workers[step.w]);
    }
  }

  /** How the worker that moves stands to its account. */
  predicate Charges(db: Db, me: Worker, a: Action, me': Worker, name: string) {
    me'.Attempting? ==>
      if me.Attempting? then
        me'.task == me.task
        && Owing(me'.stage, name) == Owing(me.stage, name) + (if Bills(me, a) then Tokens(me.stage.usage, name) else 0)
      else
        Owing(me'.stage, name) == 0
        && (me'.task.id in db.tasks ==> me'.task.attempt > db.tasks[me'.task.id].attempt)
  }

  lemma MoveCharges(self: WorkerId, cap: int, sh: Shared, me: Worker, a: Action, name: string)
    requires WorkerCan(sh, me, a) && Keyed(sh.db.tasks) && Consistent(me)
    ensures var me' := WorkerMove(self, cap, sh, me, a).1; Charges(sh.db, me, a, me', name) && Consistent(me')
  {
  }

  lemma MoverIsSquare(cfg: Config, steps: seq<Step>, s: State, w: WorkerId, a: Action, name: string)
    requires IsRun(cfg, Init(cfg), steps) && steps != [] && IsRun(cfg, Init(cfg), steps[..|steps| - 1])
    requires Run(cfg, Init(cfg), steps[..|steps| - 1]) == s && Inv(s)
    requires steps[|steps| - 1] == WorkerStep(w, a) && Enabled(s, WorkerStep(w, a))
    requires WorkerSquare(cfg, steps[..|steps| - 1], s.workers[w], name)
    requires forall t, n :: NotBegun(s, t, n) ==> BilledFor(cfg, Init(cfg), steps[..|steps| - 1], t, n, name) == 0
    ensures WorkerSquare(cfg, steps, WorkerMove(w, cfg.cap, s.sh, s.workers[w], a).1, name)
  {
    var me := s.workers[w];
    var me' := WorkerMove(w, cfg.cap, s.sh, me, a).1;
    MoveCharges(w, cfg.cap, s.sh, me, a, name);
    if me'.Attempting? {
      BilledLast(cfg, Init(cfg), steps, me'.task.id, me'.task.attempt, name);
      assert !me.Attempting? ==> NotBegun(s, me'.task.id, me'.task.attempt);
    }
  }

  lemma OldEventSquare(cfg: Config, steps: seq<Step>, s: State, e: Event, name: string)
    requires IsRun(cfg, Init(cfg), steps) && steps != [] && IsRun(cfg, Init(cfg), steps[..|steps| - 1])
    requires Run(cfg, Init(cfg), steps[..|steps| - 1]) == s && Enabled(s, steps[|steps| - 1])
    requires EventSquare(cfg, steps[..|steps| - 1], e, name)
    requires IsFinish(e) ==> BillFor(s, steps[|steps| - 1], e.taskId, e.attempt, name) == 0
    ensures EventSquare(cfg, steps, e, name)
  {
    if IsFinish(e) {
      BilledLast(cfg, Init(cfg), steps, e.taskId, e.attempt, name);
    }
  }

  /** Nobody charges for an attempt that has finished. */
  lemma FinishedBillsNothing(s: State, step: Step, name: string)
    requires Inv(s) && Enabled(s, step)
    ensures forall i :: 0 <= i < |s.sh.db.log| && IsFinish(s.sh.db.log[i]) ==>
              BillFor(s, step, s.sh.db.log[i].taskId, s.sh.db.log[i].attempt, name) == 0
  {
    forall i | 0 <= i < |s.sh.db.log| && IsFinish(s.sh.db.log[i])
      ensures BillFor(s, step, s.sh.db.log[i].taskId, s.sh.db.log[i].attempt, name) == 0
    {
      BillsUnfinished(s, step, s.sh.db.log[i], name);
    }
  }

  lemma FinishOwes(s: State, step: Step, name: string)
    requires Enabled(s, step) && StepCall(s, step) != [] && StepCall(s, step)[0].DoFinish?
    ensures step.WorkerStep? && s.workers[step.w].Attempting? && !Bills(s.workers[step.w], step.a)
    ensures var me, c := s.workers[step.w], StepCall(s, step)[0];
            && me.task.id == c.id && me.task.attempt == c.attempt
            && Owing(me.stage, name) == Tokens(UsageOf(c.report.usage), name)
  {
  }

  lemma FinishSays(db: Db, c: Call, name: string)
    requires Proper(c) && |Exec(db, c).log| > |db.log| && IsFinish(Exec(db, c).log[|db.log|])
    ensures c.DoFinish?
    ensures var e := Exec(db, c).log[|db.log|];
            && e.taskId == c.id && e.attempt == c.attempt
            && Tokens(UsageOf(e.payload.usage), name) == Tokens(UsageOf(c.report.usage), name)
  {
  }

  lemma NewEventSquare(cfg: Config, steps: seq<Step>, s: State, name: string)
    requires IsRun(cfg, Init(cfg), steps) && steps != [] && IsRun(cfg, Init(cfg), steps[..|steps| - 1])
    requires Run(cfg, Init(cfg), steps[..|steps| - 1]) == s && Inv(s) && Enabled(s, steps[|steps| - 1])
    requires forall w :: w in s.workers ==> WorkerSquare(cfg, steps[..|steps| - 1], s.workers[w], name)
    requires |Next(cfg, s, steps[|steps| - 1]).sh.db.log| > |s.sh.db.log|
    ensures EventSquare(cfg, steps, Next(cfg, s, steps[|steps| - 1]).sh.db.log[|s.sh.db.log|], name)
  {
    var step := steps[|steps| - 1];
    var e := Next(cfg, s, step).sh.db.log[|s.sh.db.log|];
    StepIsCall(cfg, s, step);
    if IsFinish(e) {
      FinishSays(s.sh.db, StepCall(s, step)[0], name);
      FinishOwes(s, step, name);
      assert WorkerSquare(cfg, steps[..|steps| - 1], s.workers[step.w], name);
      BilledLast(cfg, Init(cfg), steps, e.taskId, e.attempt, name);
    }
  }

  lemma NotBegunStill(cfg: Config, steps: seq<Step>, s: State, t: TaskId, n: nat, name: string)
    requires IsRun(cfg, Init(cfg), steps) && steps != [] && IsRun(cfg, Init(cfg), steps[..|steps| - 1])
    requires Run(cfg, Init(cfg), steps[..|steps| - 1]) == s && Inv(s) && Enabled(s, steps[|steps| - 1])
    requires NotBegun(Next(cfg, s, steps[|steps| - 1]), t, n)
    requires NotBegun(s, t, n) ==> BilledFor(cfg, Init(cfg), steps[..|steps| - 1], t, n, name) == 0
    ensures BilledFor(cfg, Init(cfg), steps, t, n, name) == 0
  {
    StepGrows(cfg, s, steps[|steps| - 1]);
    BilledLast(cfg, Init(cfg), steps, t, n, name);
    BillsOnlyBegun(s, steps[|steps| - 1], t, n, name);
  }

  lemma WorkersSquare(cfg: Config, steps: seq<Step>, s: State, name: string)
    requires IsRun(cfg, Init(cfg), steps) && steps != [] && IsRun(cfg, Init(cfg), steps[..|steps| - 1])
    requires Run(cfg, Init(cfg), steps[..|steps| - 1]) == s && Inv(s) && Enabled(s, steps[|steps| - 1])
    requires AllSquare(cfg, steps[..|steps| - 1], s, name)
    ensures var s' := Next(cfg, s, steps[|steps| - 1]);
            forall w :: w in s'.workers ==> WorkerSquare(cfg, steps, s'.workers[w], name)
  {
    var step := steps[|steps| - 1];
    var s' := Next(cfg, s, step);
    forall w | w in s'.workers ensures WorkerSquare(cfg, steps, s'.workers[w], name) {
      if step.WorkerStep? && step.w == w {
        MoverIsSquare(cfg, steps, s, w, step.a, name);
      } else {
        OtherIsSquare(cfg, steps, s, w, name);
      }
    }
  }

  lemma OldEventsSquare(cfg: Config, steps: seq<Step>, s: State, name: string)
    requires IsRun(cfg, Init(cfg), steps) && steps != [] && IsRun(cfg, Init(cfg), steps[..|steps| - 1])
    requires Run(cfg, Init(cfg), steps[..|steps| - 1]) == s && Inv(s) && Enabled(s, steps[|steps| - 1])
    requires forall i :: 0 <= i < |s.sh.db.log| ==> EventSquare(cfg, steps[..|steps| - 1], s.sh.db.log[i], name)
    ensures forall i :: 0 <= i < |s.sh.db.log| ==> EventSquare(cfg, steps, s.sh.db.log[i], name)
  {
    FinishedBillsNothing(s, steps[|steps| - 1], name);
    forall i | 0 <= i < |s.sh.db.log| ensures EventSquare(cfg, steps, s.sh.db.log[i], name) {
      OldEventSquare(cfg, steps, s, s.sh.db.log[i], name);
    }
  }

  lemma EventsSquare(cfg: Config, steps: seq<Step>, s: State, name: string)
    requires IsRun(cfg, Init(cfg), steps) && steps != [] && IsRun(cfg, Init(cfg), steps[..|steps| - 1])
    requires Run(cfg, Init(cfg), steps[..|steps| - 1]) == s && Inv(s) && Enabled(s, steps[|steps| - 1])
    requires AllSquare(cfg, steps[..|steps| - 1], s, name)
    ensures var log' := Next(cfg, s, steps[|steps| - 1]).sh.db.log;
            forall i :: 0 <= i < |log'| ==> EventSquare(cfg, steps, log'[i], name)
  {
    OldEventsSquare(cfg, steps, s, name);
    LogGrowsByOne(cfg, s, steps[|steps| - 1]);
    var log' := Next(cfg, s, steps[|steps| - 1]).sh.db.log;
    if |log'| > |s.sh.db.log| {
      NewEventSquare(cfg, steps, s, name);
    }
    AllEventsSquare(cfg, steps, s.sh.db.log, log', name);
  }

  lemma AllEventsSquare(cfg: Config, steps: seq<Step>, log: seq<Event>, log': seq<Event>, name: string)
    requires IsRun(cfg, Init(cfg), steps) && log <= log' && |log'| <= |log| + 1
    requires forall i :: 0 <= i < |log| ==> EventSquare(cfg, steps, log[i], name)
    requires |log'| > |log| ==> EventSquare(cfg, steps, log'[|log|], name)
    ensures forall i :: 0 <= i < |log'| ==> EventSquare(cfg, steps, log'[i], name)
  {
    assert forall i :: 0 <= i < |log| ==> log'[i] == log[i];
  }

  lemma {:induction false} RunIsSquare(cfg: Config, steps: seq<Step>, name: string)
    requires IsRun(cfg, Init(cfg), steps)
    ensures AllSquare(cfg, steps, Run(cfg, Init(cfg), steps), name)
    decreases |steps|
  {
    if steps != [] {
      var s := LastStep(cfg, steps);
      RunIsSquare(cfg, steps[..|steps| - 1], name);
      WorkersSquare(cfg, steps, s, name);
      EventsSquare(cfg, steps, s, name);
      var s' := Run(cfg, Init(cfg), steps);
      forall t, n | NotBegun(s', t, n) ensures BilledFor(cfg, Init(cfg), steps, t, n, name) == 0 {
        NotBegunStill(cfg, steps, s, t, n, name);
      }
    }
  }

  /** In any run: for each terminal event that an attempt's own worker wrote, what the attempt
      was charged is the usage that the event tells, whether or not there was any. */
  lemma ChargedAsTold(cfg: Config, steps: seq<Step>, i: nat, name: string)
    requires IsRun(cfg, Init(cfg), steps)
    requires i < |Run(cfg, Init(cfg), steps).sh.db.log| && IsFinish(Run(cfg, Init(cfg), steps).sh.db.log[i])
    ensures var e := Run(cfg, Init(cfg), steps).sh.db.log[i];
            BilledFor(cfg, Init(cfg), steps, e.taskId, e.attempt, name)
            == (if e.payload.usage.Some? then Tokens(e.payload.usage.value, name) else 0)
  {
    RunIsSquare(cfg, steps, name);
    assert EventSquare(cfg, steps, Run(cfg, Init(cfg), steps).sh.db.log[i], name);
  }
}

/** What an attempt says is what the log holds, and what it ends with is what its loop
    reported. */
module Emissions {
  import opened Models
  import opened Database
  import opened History
  import opened System
  import opened SystemProof
  import opened Guarantees

  // ---------- the log of an attempt ----------

  datatype Saying = Saying(kind: EventKind, payload: Payload)

  /** The non-terminal events of attempt `n` of `t`, in log order. */
  function LogOf(log: seq<Event>, t: TaskId, n: nat): seq<Saying> {
    if log == [] then [] else
      var e := log[|log| - 1];
      LogOf(log[..|log| - 1], t, n)
      + if e.taskId == t && e.attempt == n && !Closes(e) then [Saying(e.kind, e.payload)] else []
  }

  predicate On(me: Worker, t: TaskId, n: nat) {
    me.Attempting? && me.task.id == t && me.task.attempt == n
  }

  /** What a step makes the attempt say: its start, or what its agent loop emits. */
  function Says(me: Worker, a: Action, t: TaskId, n: nat): seq<Saying> {
    if !On(me, t, n) then []
    else if a.Emit? then [Saying(a.kind, Body(a.json))]
    else if a.Advance? && me.stage.Starting? then [Saying(JobStarted, Body(me.task.prompt))]
    else []
  }

  ghost function StepSays(s: State, step: Step, t: TaskId, n: nat): seq<Saying>
    requires Enabled(s, step)
  {
    if step.WorkerStep? then Says(s.workers[step.w], step.a, t, n) else []
  }

  ghost function Said(cfg: Config, s: State, steps: seq<Step>, t: TaskId, n: nat): seq<Saying>
    requires IsRun(cfg, s, steps)
    decreases |steps|
  {
    if steps == [] then []
    else StepSays(s, steps[0], t, n) + Said(cfg, Next(cfg, s, steps[0]), steps[1..], t, n)
  }

  /** What a store call adds to it. */
  function CallSays(c: Call, t: TaskId, n: nat): seq<Saying> {
    if c.DoAppend? && c.id == t && c.attempt == n then [Saying(c.kind, c.payload)] else []
  }

  lemma LogSnoc(log: seq<Event>, e: Event, t: TaskId, n: nat)
    ensures LogOf(log + [e], t, n) == LogOf(log, t, n)
            + if e.taskId == t && e.attempt == n && !Closes(e) then [Saying(e.kind, e.payload)] else []
  {
    assert (log + [e])[..|log|] == log;
  }

  lemma CallAdds(db: Db, c: Call, t: TaskId, n: nat)
    requires Proper(c)
    ensures LogOf(Exec(db, c).log, t, n) == LogOf(db.log, t, n) + CallSays(c, t, n)
  {
    var log' := Exec(db, c).log;
    if log' == db.log {
      assert LogOf(db.log, t, n) + [] == LogOf(db.log, t, n);
    } else {
      AddsOne(db, c);
      LogSnoc(db.log, log'[|db.log|], t, n);
    }
  }

  lemma AddsOne(db: Db, c: Call)
    requires Proper(c) && Exec(db, c).log != db.log
    ensures |Exec(db, c).log| == |db.log| + 1
    ensures var e := Exec(db, c).log[|db.log|];
            && Exec(db, c).log == db.log + [e]
            && (Closes(e) <==> !c.DoAppend?)
            && (c.DoAppend? ==>
                  e.taskId == c.id && e.attempt == c.attempt && e.kind == c.kind && e.payload == c.payload)
  {
  }

  lemma StepCallSays(s: State, step: Step, t: TaskId, n: nat)
    requires Enabled(s, step)
    ensures StepSays(s, step, t, n) == if StepCall(s, step) == [] then [] else CallSays(StepCall(s, step)[0], t, n)
  {
  }

  lemma StepAdds(cfg: Config, s: State, step: Step, t: TaskId, n: nat)
    requires Inv(s) && Enabled(s, step)
    ensures LogOf(Next(cfg, s, step).sh.db.log, t, n) == LogOf(s.sh.db.log, t, n) + StepSays(s, step, t, n)
  {
    StepIsCall(cfg, s, step);
    StepCallSays(s, step, t, n);
    if StepCall(s, step) != [] {
      CallAdds(s.sh.db, StepCall(s, step)[0], t, n);
    } else {
      assert LogOf(s.sh.db.log, t, n) + [] == LogOf(s.sh.db.log, t, n);
    }
  }

  lemma {:induction false} RunAdds(cfg: Config, s: State, steps: seq<Step>, t: TaskId, n: nat)
    requires IsRun(cfg, s, steps) && Inv(s)
    ensures LogOf(Run(cfg, s, steps).sh.db.log, t, n) == LogOf(s.sh.db.log, t, n) + Said(cfg, s, steps, t, n)
    decreases |steps|
  {
    if steps == [] {
      assert LogOf(s.sh.db.log, t, n) + [] == LogOf(s.sh.db.log, t, n);
    } else {
      StepAdds(cfg, s, steps[0], t, n);
      StepKeeps(cfg, s, steps[0]);
      RunAdds(cfg, Next(cfg, s, steps[0]), steps[1..], t, n);
      JoinSayings(LogOf(s.sh.db.log, t, n), StepSays(s, steps[0], t, n),
                  Said(cfg, Next(cfg, s, steps[0]), steps[1..], t, n));
    }
  }

  lemma JoinSayings(a: seq<Saying>, b: seq<Saying>, c: seq<Saying>)
    ensures a + b + c == a + (b + c)
  {
  }

  /** In any run, for every attempt: its non-terminal events in the log are, in order and
      with kind and payload, exactly its `job.started` and what its agent loop emitted. */
  lemma LogIsWhatWasSaid(cfg: Config, steps: seq<Step>, t: TaskId, n: nat)
    requires IsRun(cfg, Init(cfg), steps)
    ensures LogOf(Run(cfg, Init(cfg), steps).sh.db.log, t, n) == Said(cfg, Init(cfg), steps, t, n)
  {
    InitHolds(cfg);
    RunAdds(cfg, Init(cfg), steps, t, n);
    assert [] + Said(cfg, Init(cfg), steps, t, n) == Said(cfg, Init(cfg), steps, t, n);
  }
}

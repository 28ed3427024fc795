/** What a stored row is: as it was submitted, for ever; and who is named in it. */
module Rows {
  import opened Models
  import opened Database
  import opened History
  import opened System
  import opened SystemProof
  import opened Guarantees

  // ---------- a created row ----------

  /** A row just as it is submitted. */
  predicate AsSubmitted(t: Task, id: TaskId, prompt: string, key: Option<string>, maxAttempts: int) {
    && t.id == id && t.prompt == prompt && t.idempotencyKey == key && t.maxAttempts == maxAttempts
    && t.status.Queued? && t.attempt == 0 && !t.cancelRequested && t.usage == map[]
    && t.workerId == None && t.failureReason == None && t.resultSummary == None
  }

  /** A submission that is answered with a new task has stored exactly that row, with every
      field as submitted, beside the rows there were, and nothing else; any other answer has
      changed nothing. It is a new task exactly if the id is free and no row has the key. */
  lemma CreatedAsSubmitted(db: Db, id: TaskId, prompt: string, key: Option<string>, maxAttempts: int)
    requires UniqueKeys(db) && Keyed(db.tasks)
    ensures var (db', r) := Create(db, id, prompt, key, maxAttempts);
            && db'.log == db.log
            && (r.Created? <==> id !in db.tasks && (key.Some? ==> forall t :: !HoldsKey(db, t, key.value)))
            && (r.Created? ==>
                  && AsSubmitted(r.task, id, prompt, key, maxAttempts)
                  && db'.tasks.Keys == db.tasks.Keys + {id} && db'.tasks[id] == r.task
                  && forall t :: t in db.tasks ==> db'.tasks[t] == db.tasks[t])
            && (!r.Created? ==> db' == db)
            && (r.Existing? ==> r.task.id in db.tasks && r.task == db.tasks[r.task.id] && r.task.idempotencyKey == key)
  {
  }

  // ---------- what never changes ----------

  /** Neither id, prompt, maximum nor key. */
  predicate SameSubmission(a: Task, b: Task) {
    a.id == b.id && a.prompt == b.prompt && a.maxAttempts == b.maxAttempts && a.idempotencyKey == b.idempotencyKey
  }

  lemma CallKeepsSubmission(db: Db, c: Call, t: TaskId)
    requires Keyed(db.tasks) && t in db.tasks
    ensures t in Exec(db, c).tasks && SameSubmission(db.tasks[t], Exec(db, c).tasks[t])
  {
  }

  /** No sequence of store calls changes what was submitted. */
  lemma {:induction false} SubmissionNeverChanges(db: Db, calls: seq<Call>, t: TaskId)
    requires Keyed(db.tasks) && t in db.tasks
    ensures t in ExecAll(db, calls).tasks && SameSubmission(db.tasks[t], ExecAll(db, calls).tasks[t])
    decreases |calls|
  {
    if calls != [] {
      CallKeepsSubmission(db, calls[0], t);
      StaysKeyed(db, calls[0]);
      SubmissionNeverChanges(Exec(db, calls[0]), calls[1..], t);
    }
  }

  // ---------- who writes what ----------

  /** What a row holds beside its submission. */
  datatype Field = Course | Holder | Summary | Account | Flag

  predicate SameField(a: Task, b: Task, f: Field) {
    match f
    case Course => a.status == b.status && a.attempt == b.attempt && a.failureReason == b.failureReason
    case Holder => a.workerId == b.workerId
    case Summary => a.resultSummary == b.resultSummary
    case Account => a.usage == b.usage
    case Flag => a.cancelRequested == b.cancelRequested
  }

  /** The calls that may change the field of a row of `t`. */
  predicate MayWrite(c: Call, t: TaskId, f: Field) {
    && c.id == t
    && match f
       case Course => c.DoClaim? || c.DoFinish? || c.DoRequeue? || c.DoFail? || c.DoCancelQueued?
       case Holder => c.DoClaim? || c.DoRequeue?
       case Summary => c.DoFinish?
       case Account => c.DoAddUsage?
       case Flag => c.DoRequestCancel?
  }

  lemma CallKeepsField(db: Db, c: Call, t: TaskId, f: Field)
    requires Keyed(db.tasks) && t in db.tasks && !MayWrite(c, t, f)
    ensures t in Exec(db, c).tasks && SameField(db.tasks[t], Exec(db, c).tasks[t], f)
  {
  }

  /** Every field has its writers: any calls in any order leave a field of a row as it is,
      unless one of its own writers is called for that task. */
  lemma {:induction false} OnlyWritersChange(db: Db, calls: seq<Call>, t: TaskId, f: Field)
    requires Keyed(db.tasks) && t in db.tasks
    requires forall i :: 0 <= i < |calls| ==> !MayWrite(calls[i], t, f)
    ensures t in ExecAll(db, calls).tasks && SameField(db.tasks[t], ExecAll(db, calls).tasks[t], f)
    decreases |calls|
  {
    if calls != [] {
      CallKeepsField(db, calls[0], t, f);
      StaysKeyed(db, calls[0]);
      OnlyWritersChange(Exec(db, calls[0]), calls[1..], t, f);
    }
  }

  // ---------- what job.started carries ----------

  /** The worker works on what was submitted. */
  predicate WorksOnRow(db: Db, me: Worker) {
    me.Attempting? ==> me.task.id in db.tasks && SameSubmission(me.task, db.tasks[me.task.id])
  }

  predicate StartTells(db: Db, e: Event) {
    e.kind == JobStarted ==> e.taskId in db.tasks && e.payload == Body(db.tasks[e.taskId].prompt)
  }

  predicate StartsTellPrompt(db: Db) {
    forall i :: 0 <= i < |db.log| ==> StartTells(db, db.log[i])
  }

  ghost predicate PromptsKept(s: State) {
    StartsTellPrompt(s.sh.db) && forall w :: w in s.workers ==> WorksOnRow(s.sh.db, s.workers[w])
  }

  /** The rows that exist keep what was submitted. */
  predicate KeepsSubmissions(db: Db, db': Db) {
    forall t :: t in db.tasks ==> t in db'.tasks && SameSubmission(db.tasks[t], db'.tasks[t])
  }

  lemma StepKeepsSubmissions(cfg: Config, s: State, step: Step)
    requires Inv(s) && Enabled(s, step)
    ensures KeepsSubmissions(s.sh.db, Next(cfg, s, step).sh.db)
  {
    StepIsCall(cfg, s, step);
    if StepCall(s, step) != [] {
      forall t | t in s.sh.db.tasks
        ensures t in Next(cfg, s, step).sh.db.tasks
        ensures SameSubmission(s.sh.db.tasks[t], Next(cfg, s, step).sh.db.tasks[t])
      {
        CallKeepsSubmission(s.sh.db, StepCall(s, step)[0], t);
      }
    }
  }

  lemma MoveWorksOnRow(self: WorkerId, cap: int, sh: Shared, me: Worker, a: Action)
    requires WorkerCan(sh, me, a) && Keyed(sh.db.tasks) && WorksOnRow(sh.db, me)
    requires KeepsSubmissions(sh.db, WorkerMove(self, cap, sh, me, a).0.db)
    ensures var (sh', me') := WorkerMove(self, cap, sh, me, a); WorksOnRow(sh'.db, me')
  {
  }

  lemma WorksStill(db: Db, db': Db, me: Worker)
    requires WorksOnRow(db, me) && KeepsSubmissions(db, db')
    ensures WorksOnRow(db', me)
  {
  }

  /** A new `job.started` comes from a worker on the task, with the prompt it has. */
  lemma NewStart(cfg: Config, s: State, step: Step)
    requires Inv(s) && Enabled(s, step) && PromptsKept(s)
    requires |Next(cfg, s, step).sh.db.log| > |s.sh.db.log|
    ensures StartTells(s.sh.db, Next(cfg, s, step).sh.db.log[|s.sh.db.log|])
  {
    StepIsCall(cfg, s, step);
    StartsFrom(s.sh.db, StepCall(s, step)[0]);
    StarterTells(s, step);
  }

  predicate IsStart(c: Call) {
    c.DoAppend? && c.kind == JobStarted
  }

  lemma StarterTells(s: State, step: Step)
    requires Enabled(s, step) && StepCall(s, step) != []
    requires forall w :: w in s.workers ==> WorksOnRow(s.sh.db, s.workers[w])
    ensures var c := StepCall(s, step)[0];
            IsStart(c) ==> c.id in s.sh.db.tasks && c.payload == Body(s.sh.db.tasks[c.id].prompt)
  {
    if step.WorkerStep? {
      assert WorksOnRow(s.sh.db, s.workers[step.w]);
    }
  }

  lemma StartsFrom(db: Db, c: Call)
    requires |Exec(db, c).log| > |db.log|
    ensures Exec(db, c).log[|db.log|].kind == JobStarted ==>
              IsStart(c) && Exec(db, c).log[|db.log|].taskId == c.id
              && Exec(db, c).log[|db.log|].payload == c.payload
  {
  }

  lemma StepKeepsPrompts(cfg: Config, s: State, step: Step)
    requires Inv(s) && Enabled(s, step) && PromptsKept(s)
    ensures PromptsKept(Next(cfg, s, step))
  {
    StepKeepsSubmissions(cfg, s, step);
    LogGrowsByOne(cfg, s, step);
    if |Next(cfg, s, step).sh.db.log| > |s.sh.db.log| {
      NewStart(cfg, s, step);
    }
    StartsStillTell(s.sh.db, Next(cfg, s, step).sh.db);
    WorkersOnRows(cfg, s, step);
  }

  lemma StartsStillTell(db: Db, db': Db)
    requires StartsTellPrompt(db) && KeepsSubmissions(db, db') && db.log <= db'.log && |db'.log| <= |db.log| + 1
    requires |db'.log| > |db.log| ==> StartTells(db, db'.log[|db.log|])
    ensures StartsTellPrompt(db')
  {
    assert forall i :: 0 <= i < |db.log| ==> db'.log[i] == db.log[i];
  }

  lemma WorkersOnRows(cfg: Config, s: State, step: Step)
    requires Keyed(s.sh.db.tasks) && Enabled(s, step)
    requires forall w :: w in s.workers ==> WorksOnRow(s.sh.db, s.workers[w])
    requires KeepsSubmissions(s.sh.db, Next(cfg, s, step).sh.db)
    ensures var s' := Next(cfg, s, step); forall w :: w in s'.workers ==> WorksOnRow(s'.sh.db, s'.workers[w])
  {
    var s' := Next(cfg, s, step);
    forall w | w in s'.workers ensures WorksOnRow(s'.sh.db, s'.workers[w]) {
      if step.WorkerStep? && step.w == w {
        MoveWorksOnRow(w, cfg.cap, s.sh, s.workers[w], step.a);
      } else {
        WorksStill(s.sh.db, s'.sh.db, s.workers[w]);
      }
    }
  }

  lemma {:induction false} RunKeepsPrompts(cfg: Config, s: State, steps: seq<Step>)
    requires IsRun(cfg, s, steps) && Inv(s) && PromptsKept(s)
    ensures PromptsKept(Run(cfg, s, steps))
    decreases |steps|
  {
    if steps != [] {
      StepKeepsPrompts(cfg, s, steps[0]);
      StepKeeps(cfg, s, steps[0]);
      RunKeepsPrompts(cfg, Next(cfg, s, steps[0]), steps[1..]);
    }
  }

  /** From submission to start, in any run: a submission that created a task has the row with
      its id, prompt, key and maximum for ever, and every `job.started` of the task carries
      that prompt, and so does every worker on it. */
  lemma PromptReachesEveryStart(cfg: Config, steps: seq<Step>, step: Step, later: seq<Step>)
    requires IsRun(cfg, Init(cfg), steps) && step.Submit? && Enabled(Run(cfg, Init(cfg), steps), step)
    requires step.id !in Run(cfg, Init(cfg), steps).sh.db.tasks
    requires step.id in Next(cfg, Run(cfg, Init(cfg), steps), step).sh.db.tasks
    requires IsRun(cfg, Next(cfg, Run(cfg, Init(cfg), steps), step), later)
    ensures var s := Run(cfg, Next(cfg, Run(cfg, Init(cfg), steps), step), later);
            && step.id in s.sh.db.tasks
            && var row := s.sh.db.tasks[step.id];
               && row.id == step.id && row.prompt == step.prompt && row.idempotencyKey == step.key
               && row.maxAttempts == step.maxAttempts
               && (forall i ::
                     0 <= i < |s.sh.db.log| && s.sh.db.log[i].kind == JobStarted && s.sh.db.log[i].taskId == step.id
                     ==> s.sh.db.log[i].payload == Body(step.prompt))
               && (forall w :: w in s.workers && s.workers[w].Attempting? && s.workers[w].task.id == step.id ==>
                     s.workers[w].task.prompt == step.prompt)
  {
    InitHolds(cfg);
    RunKeeps(cfg, Init(cfg), steps);
    RunKeepsPrompts(cfg, Init(cfg), steps);
    var s0 := Run(cfg, Init(cfg), steps);
    var s1 := Next(cfg, s0, step);
    CreatedAsSubmitted(s0.sh.db, step.id, step.prompt, step.key, step.maxAttempts);
    StepKeeps(cfg, s0, step);
    StepKeepsPrompts(cfg, s0, step);
    RunIsCalls(cfg, s1, later);
    SubmissionNeverChanges(s1.sh.db, RunCalls(cfg, s1, later), step.id);
    RunKeepsPrompts(cfg, s1, later);
    PromptsOf(Run(cfg, s1, later), step.id);
  }

  lemma PromptsOf(s: State, t: TaskId)
    requires PromptsKept(s) && t in s.sh.db.tasks
    ensures forall i :: 0 <= i < |s.sh.db.log| && s.sh.db.log[i].kind == JobStarted && s.sh.db.log[i].taskId == t ==>
              s.sh.db.log[i].payload == Body(s.sh.db.tasks[t].prompt)
    ensures forall w :: w in s.workers && s.workers[w].Attempting? && s.workers[w].task.id == t ==>
              s.workers[w].task.prompt == s.sh.db.tasks[t].prompt
  {
    assert forall i :: 0 <= i < |s.sh.db.log| ==> StartTells(s.sh.db, s.sh.db.log[i]);
    assert forall w :: w in s.workers ==> WorksOnRow(s.sh.db, s.workers[w]);
  }

  // ---------- who is named ----------

  /** A running row names a worker, a queued one names nobody. */
  predicate NamesSomebody(t: Task) {
    && (t.status == Queued ==> t.workerId == None)
    && (t.status == Running ==> t.workerId.Some?)
  }

  /** A worker on the attempt that the row runs is the one that the row names. */
  predicate IsNamed(db: Db, w: WorkerId, me: Worker) {
    me.Attempting? && RunsAttempt(db, me.task.id, me.task.attempt) ==> db.tasks[me.task.id].workerId == Some(w)
  }

  ghost predicate AllNamed(s: State) {
    && (forall t :: t in s.sh.db.tasks ==> NamesSomebody(s.sh.db.tasks[t]))
    && (forall w :: w in s.workers ==> IsNamed(s.sh.db, w, s.workers[w]))
  }

  lemma CallNames(db: Db, c: Call, t: TaskId)
    requires Keyed(db.tasks) && Proper(c) && t in Exec(db, c).tasks
    requires t in db.tasks ==> NamesSomebody(db.tasks[t])
    ensures NamesSomebody(Exec(db, c).tasks[t])
  {
  }

  /** A call that leaves an attempt running leaves its worker named. */
  lemma CallKeepsName(db: Db, c: Call, t: TaskId, n: nat)
    requires Keyed(db.tasks) && RunsAttempt(Exec(db, c), t, n) && t in db.tasks && n <= db.tasks[t].attempt
    ensures RunsAttempt(db, t, n) && Exec(db, c).tasks[t].workerId == db.tasks[t].workerId
  {
  }

  lemma MoveIsNamed(self: WorkerId, cap: int, sh: Shared, me: Worker, a: Action)
    requires WorkerCan(sh, me, a) && Keyed(sh.db.tasks) && IsNamed(sh.db, self, me)
    ensures var (sh', me') := WorkerMove(self, cap, sh, me, a); IsNamed(sh'.db, self, me')
  {
  }

  lemma CallLeavesNamed(db: Db, c: Call, w: WorkerId, me: Worker)
    requires Keyed(db.tasks) && WorkerOk(db, me) && IsNamed(db, w, me)
    ensures IsNamed(Exec(db, c), w, me)
  {
    if me.Attempting? && RunsAttempt(Exec(db, c), me.task.id, me.task.attempt) {
      CallKeepsName(db, c, me.task.id, me.task.attempt);
    }
  }

  lemma OtherIsNamed(cfg: Config, s: State, step: Step, w: WorkerId)
    requires Inv(s) && Enabled(s, step) && w in s.workers && IsNamed(s.sh.db, w, s.workers[w])
    ensures IsNamed(Next(cfg, s, step).sh.db, w, s.workers[w])
  {
    StepIsCall(cfg, s, step);
    if StepCall(s, step) != [] {
      CallLeavesNamed(s.sh.db, StepCall(s, step)[0], w, s.workers[w]);
    }
  }

  lemma StepNames(cfg: Config, s: State, step: Step)
    requires Inv(s) && Enabled(s, step) && AllNamed(s)
    ensures AllNamed(Next(cfg, s, step))
  {
    var s' := Next(cfg, s, step);
    RowsNamed(cfg, s, step);
    forall w | w in s'.workers ensures IsNamed(s'.sh.db, w, s'.workers[w]) {
      if step.WorkerStep? && step.w == w {
        MoveIsNamed(w, cfg.cap, s.sh, s.workers[w], step.a);
      } else {
        OtherIsNamed(cfg, s, step, w);
      }
    }
  }

  lemma RowsNamed(cfg: Config, s: State, step: Step)
    requires Inv(s) && Enabled(s, step)
    requires forall t :: t in s.sh.db.tasks ==> NamesSomebody(s.sh.db.tasks[t])
    ensures forall t :: t in Next(cfg, s, step).sh.db.tasks ==> NamesSomebody(Next(cfg, s, step).sh.db.tasks[t])
  {
    StepIsCall(cfg, s, step);
    if StepCall(s, step) != [] {
      forall t | t in Next(cfg, s, step).sh.db.tasks ensures NamesSomebody(Next(cfg, s, step).sh.db.tasks[t]) {
        CallNames(s.sh.db, StepCall(s, step)[0], t);
      }
    }
  }

  lemma {:induction false} RunNames(cfg: Config, s: State, steps: seq<Step>)
    requires IsRun(cfg, s, steps) && Inv(s) && AllNamed(s)
    ensures AllNamed(Run(cfg, s, steps))
    decreases |steps|
  {
    if steps != [] {
      StepNames(cfg, s, steps[0]);
      StepKeeps(cfg, s, steps[0]);
      RunNames(cfg, Next(cfg, s, steps[0]), steps[1..]);
    }
  }

  /** In any reachable state a queued row names no worker, a running one names one; and a
      worker on the attempt that a row runs is the one it names. */
  lemma RowNamesItsWorker(cfg: Config, steps: seq<Step>)
    requires IsRun(cfg, Init(cfg), steps)
    ensures var s := Run(cfg, Init(cfg), steps); var tasks := s.sh.db.tasks;
            && (forall t :: t in tasks && tasks[t].status == Queued ==> tasks[t].workerId == None)
            && (forall t :: t in tasks && tasks[t].status == Running ==> tasks[t].workerId.Some?)
            && (forall w :: w in s.workers && s.workers[w].Attempting? ==>
                  var task := s.workers[w].task;
                  RunsAttempt(s.sh.db, task.id, task.attempt) ==> s.sh.db.tasks[task.id].workerId == Some(w))
  {
    InitHolds(cfg);
    RunNames(cfg, Init(cfg), steps);
    var s := Run(cfg, Init(cfg), steps);
    assert forall w :: w in s.workers ==> IsNamed(s.sh.db, w, s.workers[w]);
  }
}

/** What whole runs add up to: the tokens charged to a task, the submissions under one
    idempotency key, and the pushes of the API. */
module Accounting {
  import opened Models
  import opened Database
  import opened History
  import opened System
  import opened SystemProof
  import opened Guarantees

  // ---------- tokens ----------

  /** The worker is about to call `add_usage`. */
  predicate Bills(me: Worker, a: Action) {
    a.Advance? && me.Attempting? && me.stage.UsageDue?
  }

  /** The tokens that a step charges to `t`. */
  ghost function Bill(s: State, step: Step, t: TaskId, name: string): int
    requires Enabled(s, step)
  {
    match step
    case WorkerStep(w, a) =>
      if Bills(s.workers[w], a) && s.workers[w].task.id == t then Tokens(s.workers[w].stage.usage, name) else 0
    case _ => 0
  }

  ghost function Billed(cfg: Config, s: State, steps: seq<Step>, t: TaskId, name: string): int
    requires IsRun(cfg, s, steps)
    decreases |steps|
  {
    if steps == [] then 0 else Bill(s, steps[0], t, name) + Billed(cfg, Next(cfg, s, steps[0]), steps[1..], t, name)
  }

  lemma CallBills(db: Db, c: Call, t: TaskId, name: string)
    ensures Balance(Exec(db, c), t, name) == Balance(db, t, name) + if t in db.tasks then Charge(c, t, name) else 0
  {
  }

  lemma WorkerBills(self: WorkerId, db: Db, me: Worker, a: Action)
    requires WorkerOk(db, me)
    ensures Bills(me, a) ==>
              WorkerCall(self, me, a) == [DoAddUsage(me.task.id, me.stage.usage)] && me.task.id in db.tasks
    ensures !Bills(me, a) && WorkerCall(self, me, a) != [] ==> !WorkerCall(self, me, a)[0].DoAddUsage?
  {
  }

  lemma RequestsBillNothing(s: State, step: Step)
    requires Enabled(s, step) && !step.WorkerStep? && StepCall(s, step) != []
    ensures !StepCall(s, step)[0].DoAddUsage?
  {
  }

  lemma CallCharges(s: State, step: Step, t: TaskId, name: string)
    requires Inv(s) && Enabled(s, step)
    ensures StepCall(s, step) == [] ==> Bill(s, step, t, name) == 0
    ensures StepCall(s, step) != [] ==>
              Bill(s, step, t, name) == if t in s.sh.db.tasks then Charge(StepCall(s, step)[0], t, name) else 0
  {
    if step.WorkerStep? {
      WorkerBills(step.w, s.sh.db, s.workers[step.w], step.a);
    } else if StepCall(s, step) != [] {
      RequestsBillNothing(s, step);
    }
  }

  lemma StepBills(cfg: Config, s: State, step: Step, t: TaskId, name: string)
    requires Inv(s) && Enabled(s, step)
    ensures Balance(Next(cfg, s, step).sh.db, t, name) == Balance(s.sh.db, t, name) + Bill(s, step, t, name)
  {
    StepIsCall(cfg, s, step);
    CallCharges(s, step, t, name);
    if StepCall(s, step) != [] {
      CallBills(s.sh.db, StepCall(s, step)[0], t, name);
    }
  }

  lemma {:induction false} RunBills(cfg: Config, s: State, steps: seq<Step>, t: TaskId, name: string)
    requires Inv(s) && IsRun(cfg, s, steps)
    ensures Balance(Run(cfg, s, steps).sh.db, t, name) == Balance(s.sh.db, t, name) + Billed(cfg, s, steps, t, name)
    decreases |steps|
  {
    if steps != [] {
      StepBills(cfg, s, steps[0], t, name);
      StepKeeps(cfg, s, steps[0]);
      RunBills(cfg, Next(cfg, s, steps[0]), steps[1..], t, name);
    }
  }

  /** A worker on attempt `a` of `t` that has not passed `add_usage` yet. */
  predicate Unbilled(me: Worker, t: TaskId, a: nat) {
    me.Attempting? && me.task.id == t && me.task.attempt == a && !me.stage.FinishDue?
  }

  /** The step charges `t` for its attempt `n`. */
  ghost predicate BillsAttempt(s: State, step: Step, t: TaskId, n: nat)
    requires Enabled(s, step)
  {
    step.WorkerStep? && Bills(s.workers[step.w], step.a) && Unbilled(s.workers[step.w], t, n)
  }

  ghost function BillCount(cfg: Config, s: State, steps: seq<Step>, t: TaskId, n: nat): nat
    requires IsRun(cfg, s, steps)
    decreases |steps|
  {
    if steps == [] then 0
    else (if BillsAttempt(s, steps[0], t, n) then 1 else 0) + BillCount(cfg, Next(cfg, s, steps[0]), steps[1..], t, n)
  }

  /** Attempt `n` of `t` has begun and nobody will charge for it any more. */
  ghost predicate Spent(s: State, t: TaskId, n: nat) {
    && t in s.sh.db.tasks && n <= s.sh.db.tasks[t].attempt
    && forall w :: w in s.workers ==> !Unbilled(s.workers[w], t, n)
  }

  lemma MoveUnbilled(self: WorkerId, cap: int, sh: Shared, me: Worker, a: Action, t: TaskId, n: nat)
    requires WorkerCan(sh, me, a) && Keyed(sh.db.tasks) && t in sh.db.tasks && n <= sh.db.tasks[t].attempt
    ensures Unbilled(WorkerMove(self, cap, sh, me, a).1, t, n) ==> Unbilled(me, t, n) && !Bills(me, a)
  {
  }

  /** An attempt that a worker is about to charge for has begun, and nobody else is on it. */
  lemma BillingAlone(s: State, step: Step, t: TaskId, n: nat)
    requires Inv(s) && Enabled(s, step) && BillsAttempt(s, step, t, n)
    ensures t in s.sh.db.tasks && n <= s.sh.db.tasks[t].attempt
    ensures forall w :: w in s.workers && w != step.w ==> !Unbilled(s.workers[w], t, n)
  {
    forall w | w in s.workers && w != step.w ensures !Unbilled(s.workers[w], t, n) {
      assert !SameAttempt(s.workers[w], s.workers[step.w]);
    }
  }

  lemma SpentStays(cfg: Config, s: State, step: Step, t: TaskId, n: nat)
    requires Inv(s) && Enabled(s, step) && (Spent(s, t, n) || BillsAttempt(s, step, t, n))
    ensures Spent(Next(cfg, s, step), t, n)
  {
    if BillsAttempt(s, step, t, n) {
      BillingAlone(s, step, t, n);
    }
    StepGrows(cfg, s, step);
    WorkersSpent(cfg, s, step, t, n);
  }

  lemma WorkersSpent(cfg: Config, s: State, step: Step, t: TaskId, n: nat)
    requires Keyed(s.sh.db.tasks) && Enabled(s, step) && t in s.sh.db.tasks && n <= s.sh.db.tasks[t].attempt
    requires Spent(s, t, n) ||
             (BillsAttempt(s, step, t, n)
              && forall w :: w in s.workers && w != step.w ==> !Unbilled(s.workers[w], t, n))
    ensures forall w :: w in Next(cfg, s, step).workers ==> !Unbilled(Next(cfg, s, step).workers[w], t, n)
  {
    if step.WorkerStep? {
      MoveUnbilled(step.w, cfg.cap, s.sh, s.workers[step.w], step.a, t, n);
    }
  }

  lemma {:induction false} BilledOnce(cfg: Config, s: State, steps: seq<Step>, t: TaskId, n: nat)
    requires Inv(s) && IsRun(cfg, s, steps)
    ensures BillCount(cfg, s, steps, t, n) <= if Spent(s, t, n) then 0 else 1
    decreases |steps|
  {
    if steps != [] {
      StepKeeps(cfg, s, steps[0]);
      if Spent(s, t, n) || BillsAttempt(s, steps[0], t, n) {
        SpentStays(cfg, s, steps[0], t, n);
      }
      BilledOnce(cfg, Next(cfg, s, steps[0]), steps[1..], t, n);
    }
  }

  /** Over any run, the usage of a task is exactly what the attempts that reached
      `add_usage` reported, whether or not their terminal write won, and no attempt is
      charged twice. */
  lemma UsageOfRun(cfg: Config, steps: seq<Step>, t: TaskId, name: string)
    requires IsRun(cfg, Init(cfg), steps)
    ensures Balance(Run(cfg, Init(cfg), steps).sh.db, t, name) == Billed(cfg, Init(cfg), steps, t, name)
    ensures forall n :: BillCount(cfg, Init(cfg), steps, t, n) <= 1
  {
    InitHolds(cfg);
    RunBills(cfg, Init(cfg), steps, t, name);
    forall n ensures BillCount(cfg, Init(cfg), steps, t, n) <= 1 {
      BilledOnce(cfg, Init(cfg), steps, t, n);
    }
  }

  // ---------- submissions ----------

  lemma {:induction false} KeyStays(cfg: Config, s: State, steps: seq<Step>, t: TaskId, key: string)
    requires Inv(s) && IsRun(cfg, s, steps) && HoldsKey(s.sh.db, t, key)
    ensures HoldsKey(Run(cfg, s, steps).sh.db, t, key)
    decreases |steps|
  {
    if steps != [] {
      StepKeeps(cfg, s, steps[0]);
      StepIsCall(cfg, s, steps[0]);
      if StepCall(s, steps[0]) != [] {
        KeyIsKept(s.sh.db, StepCall(s, steps[0])[0], t, key);
      }
      KeyStays(cfg, Next(cfg, s, steps[0]), steps[1..], t, key);
    }
  }

  /** A submission under a key that `t` holds has no effect. */
  predicate SubmitIsIdle(before: State, after: State, h: nat) {
    after == before.(handlers := before.handlers[h := Answered])
  }

  lemma SubmitAgain(cfg: Config, s: State, t: TaskId, step: Step)
    requires Sound(s.sh.db) && step.Submit? && step.key.Some? && HoldsKey(s.sh.db, t, step.key.value)
    requires Enabled(s, step)
    ensures SubmitIsIdle(s, Next(cfg, s, step), step.h)
    ensures step.key.value != "" ==>
              Create(s.sh.db, step.id, step.prompt, step.key, step.maxAttempts).1 == Existing(s.sh.db.tasks[t])
  {
    Resubmission(s.sh.db, [], t, step.key.value, step.id, step.prompt, step.maxAttempts);
  }

  /** Once a run has stored a task under a key, whatever comes later: no other task ever
      holds the key, and a submission with it changes nothing and, unless the key is
      empty, is answered with that task. */
  lemma OneTaskPerKey(cfg: Config, steps: seq<Step>, later: seq<Step>, t: TaskId, step: Step)
    requires IsRun(cfg, Init(cfg), steps) && IsRun(cfg, Run(cfg, Init(cfg), steps), later)
    requires step.Submit? && step.key.Some? && HoldsKey(Run(cfg, Init(cfg), steps).sh.db, t, step.key.value)
    ensures var s := Run(cfg, Run(cfg, Init(cfg), steps), later);
            && HoldsKey(s.sh.db, t, step.key.value)
            && (forall other :: HoldsKey(s.sh.db, other, step.key.value) ==> other == t)
            && (Enabled(s, step) ==>
                  && SubmitIsIdle(s, Next(cfg, s, step), step.h)
                  && (step.key.value != "" ==>
                        Create(s.sh.db, step.id, step.prompt, step.key, step.maxAttempts).1
                        == Existing(s.sh.db.tasks[t])))
  {
    InitHolds(cfg);
    RunKeeps(cfg, Init(cfg), steps);
    var s := Run(cfg, Init(cfg), steps);
    RunKeeps(cfg, s, later);
    KeyStays(cfg, s, later, t, step.key.value);
    if Enabled(Run(cfg, s, later), step) {
      SubmitAgain(cfg, Run(cfg, s, later), t, step);
    }
  }

  /** The exception: a first submission under the empty key is stored, and so a second one is
      not answered with it but fails. */
  lemma EmptyKeyFails(cfg: Config, first: TaskId, second: TaskId, prompt: string)
    requires first != second
    ensures var steps := [Submit(0, first, prompt, Some(""), 2), Submit(1, second, prompt, Some(""), 2)];
            && IsRun(cfg, Init(cfg), steps)
            && var s := Next(cfg, Init(cfg), steps[0]);
               && HoldsKey(s.sh.db, first, "")
               && Create(s.sh.db, second, prompt, Some(""), 2) == (s.sh.db, IntegrityError)
               && Run(cfg, Init(cfg), steps).sh == s.sh
  {
    var one, two := Submit(0, first, prompt, Some(""), 2), Submit(1, second, prompt, Some(""), 2);
    var s := Next(cfg, Init(cfg), one);
    assert HoldsKey(s.sh.db, first, "");
    var s' := Next(cfg, s, two);
    assert s'.sh == s.sh;
    assert [one, two][1..] == [two] && [two][1..] == [];
    assert Run(cfg, s', []) == s' && Run(cfg, s, [two]) == s';
  }

  // ---------- pushes of the API ----------

  ghost predicate Pushes(s: State, h: nat, id: TaskId) {
    h in s.handlers && s.handlers[h] == Submitted(id)
  }

  ghost predicate ApiPushes(s: State, step: Step, id: TaskId)
    requires Enabled(s, step)
  {
    step.HandlerStep? && Pushes(s, step.h, id)
  }

  ghost function ApiPushCount(cfg: Config, s: State, steps: seq<Step>, id: TaskId): nat
    requires IsRun(cfg, s, steps)
    decreases |steps|
  {
    if steps == [] then 0
    else (if ApiPushes(s, steps[0], id) then 1 else 0) + ApiPushCount(cfg, Next(cfg, s, steps[0]), steps[1..], id)
  }

  /** Only one request may still have to push `id`, and only if the task exists. */
  ghost predicate OnePusher(s: State, id: TaskId) {
    && (forall g, h :: Pushes(s, g, id) && Pushes(s, h, id) ==> g == h)
    && (forall h :: Pushes(s, h, id) ==> id in s.sh.db.tasks)
  }

  ghost predicate NoPusher(s: State, id: TaskId) {
    id in s.sh.db.tasks && forall h :: !Pushes(s, h, id)
  }

  /** A request that has to push `id` had to before, or has just created the task. */
  lemma PusherWas(cfg: Config, s: State, step: Step, h: nat, id: TaskId)
    requires Enabled(s, step) && Pushes(Next(cfg, s, step), h, id)
    ensures || (Pushes(s, h, id) && !(step.HandlerStep? && step.h == h))
            || (step.Submit? && step.h == h && id !in s.sh.db.tasks && id in Next(cfg, s, step).sh.db.tasks)
  {
  }

  lemma PusherStill(cfg: Config, s: State, step: Step, h: nat, id: TaskId)
    requires Inv(s) && Enabled(s, step) && OnePusher(s, id) && Pushes(Next(cfg, s, step), h, id)
    ensures id in Next(cfg, s, step).sh.db.tasks && !NoPusher(s, id) && !ApiPushes(s, step, id)
    ensures Pushes(s, h, id) || (step.Submit? && step.h == h && id !in s.sh.db.tasks)
  {
    PusherWas(cfg, s, step, h, id);
    if Pushes(s, h, id) {
      StepGrows(cfg, s, step);
    }
  }

  lemma OnePusherStays(cfg: Config, s: State, step: Step, id: TaskId)
    requires Inv(s) && Enabled(s, step) && OnePusher(s, id)
    ensures OnePusher(Next(cfg, s, step), id)
  {
    var s' := Next(cfg, s, step);
    forall h | Pushes(s', h, id)
      ensures id in s'.sh.db.tasks && (Pushes(s, h, id) || (step.Submit? && step.h == h && id !in s.sh.db.tasks))
    {
      PusherStill(cfg, s, step, h, id);
    }
  }

  lemma NoPusherStays(cfg: Config, s: State, step: Step, id: TaskId)
    requires Inv(s) && Enabled(s, step) && OnePusher(s, id) && (NoPusher(s, id) || ApiPushes(s, step, id))
    ensures NoPusher(Next(cfg, s, step), id)
  {
    StepGrows(cfg, s, step);
    forall h ensures !Pushes(Next(cfg, s, step), h, id) {
      if Pushes(Next(cfg, s, step), h, id) {
        PusherStill(cfg, s, step, h, id);
      }
    }
  }

  lemma {:induction false} PushesFrom(cfg: Config, s: State, steps: seq<Step>, id: TaskId)
    requires Inv(s) && IsRun(cfg, s, steps) && OnePusher(s, id)
    ensures ApiPushCount(cfg, s, steps, id) <= if NoPusher(s, id) then 0 else 1
    decreases |steps|
  {
    if steps != [] {
      StepKeeps(cfg, s, steps[0]);
      OnePusherStays(cfg, s, steps[0], id);
      if NoPusher(s, id) || ApiPushes(s, steps[0], id) {
        NoPusherStays(cfg, s, steps[0], id);
      }
      PushesFrom(cfg, Next(cfg, s, steps[0]), steps[1..], id);
    }
  }

  /** The API pushes a task at most once: all other queue entries come from repair. */
  lemma ApiEnqueuesOnce(cfg: Config, steps: seq<Step>, id: TaskId)
    requires IsRun(cfg, Init(cfg), steps)
    ensures ApiPushCount(cfg, Init(cfg), steps, id) <= 1
  {
    InitHolds(cfg);
    PushesFrom(cfg, Init(cfg), steps, id);
  }

  // ---------- and it does push ----------

  /** At this moment of the run `id` was put behind all others in the queue. */
  ghost predicate PushedAt(cfg: Config, s: State, steps: seq<Step>, a: nat, id: TaskId) {
    && a < |steps| && IsRun(cfg, s, steps[..a]) && Enabled(Run(cfg, s, steps[..a]), steps[a])
    && Next(cfg, Run(cfg, s, steps[..a]), steps[a]).sh.queue == [id] + Run(cfg, s, steps[..a]).sh.queue
  }

  ghost predicate PushedIn(cfg: Config, s: State, steps: seq<Step>, id: TaskId) {
    exists a: nat :: PushedAt(cfg, s, steps, a, id)
  }

  lemma PushedFirst(cfg: Config, s: State, steps: seq<Step>, id: TaskId)
    requires IsRun(cfg, s, steps) && steps != []
    requires Next(cfg, s, steps[0]).sh.queue == [id] + s.sh.queue
             || PushedIn(cfg, Next(cfg, s, steps[0]), steps[1..], id)
    ensures PushedIn(cfg, s, steps, id)
  {
    if Next(cfg, s, steps[0]).sh.queue == [id] + s.sh.queue {
      assert steps[..0] == [];
      assert PushedAt(cfg, s, steps, 0, id);
    } else {
      var s1 := Next(cfg, s, steps[0]);
      var a: nat :| PushedAt(cfg, s1, steps[1..], a, id);
      assert steps[..a + 1][0] == steps[0] && steps[..a + 1][1..] == steps[1..][..a];
      assert PushedAt(cfg, s, steps, a + 1, id);
    }
  }

  /** A request that has to push either still has to, or is answered and has pushed. */
  lemma {:induction false} PushIsMade(cfg: Config, s: State, steps: seq<Step>, h: nat, id: TaskId)
    requires IsRun(cfg, s, steps) && Pushes(s, h, id)
    ensures var end := Run(cfg, s, steps);
            Pushes(end, h, id) || (h in end.handlers && end.handlers[h] == Answered && PushedIn(cfg, s, steps, id))
    decreases |steps|
  {
    if steps != [] {
      var s1 := Next(cfg, s, steps[0]);
      if Pushes(s1, h, id) {
        PushIsMade(cfg, s1, steps[1..], h, id);
        if PushedIn(cfg, s1, steps[1..], id) {
          PushedFirst(cfg, s, steps, id);
        }
      } else {
        PushedFirst(cfg, s, steps, id);
        StaysAnswered(cfg, s1, steps[1..], h);
      }
    }
  }

  lemma {:induction false} StaysAnswered(cfg: Config, s: State, steps: seq<Step>, h: nat)
    requires IsRun(cfg, s, steps) && h in s.handlers && s.handlers[h] == Answered
    ensures h in Run(cfg, s, steps).handlers && Run(cfg, s, steps).handlers[h] == Answered
    decreases |steps|
  {
    if steps != [] {
      StaysAnswered(cfg, Next(cfg, s, steps[0]), steps[1..], h);
    }
  }

  /** In any run: a submission that stores a task is not answered before the task has been
      put into the queue, behind all others; unless it still has that to do, it has done it. */
  lemma SubmittedIsQueued(cfg: Config, s: State, submit: Step, later: seq<Step>)
    requires submit.Submit? && Enabled(s, submit) && IsRun(cfg, Next(cfg, s, submit), later)
    requires submit.id !in s.sh.db.tasks && submit.id in Next(cfg, s, submit).sh.db.tasks
    ensures var end := Run(cfg, Next(cfg, s, submit), later);
            && submit.h in end.handlers
            && (end.handlers[submit.h] == Submitted(submit.id)
                || (end.handlers[submit.h] == Answered && PushedIn(cfg, Next(cfg, s, submit), later, submit.id)))
  {
    PushIsMade(cfg, Next(cfg, s, submit), later, submit.h, submit.id);
  }
}

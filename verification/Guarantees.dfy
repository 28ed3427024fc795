/** What the platform guarantees over every run: any number of workers and requests, any
    interleaving, crashes, lost leases, duplicated and lost queue entries. */
module Guarantees {
  import opened Models
  import opened Database
  import opened History
  import opened System
  import opened SystemProof

  // ---------- a run is a sequence of guarded store calls ----------

  lemma StepIsCall(cfg: Config, s: State, step: Step)
    requires Inv(s) && Enabled(s, step)
    ensures |StepCall(s, step)| <= 1
    ensures Next(cfg, s, step).sh.db ==
            if StepCall(s, step) == [] then s.sh.db else Exec(s.sh.db, StepCall(s, step)[0])
    ensures StepCall(s, step) != [] ==> Licensed(s.sh.db, StepCall(s, step)[0])
  {
    match step
    case WorkerStep(w, a) =>
      MoveIsCall(w, cfg.cap, s.sh, s.workers[w], a);
      if WorkerCall(w, s.workers[w], a) != [] {
        CallIsLicensed(w, s.sh, s.workers[w], a);
      }
    case _ =>
  }

  lemma StepGrows(cfg: Config, s: State, step: Step)
    requires Inv(s) && Enabled(s, step)
    ensures Grows(s.sh.db, Next(cfg, s, step).sh.db)
  {
    StepIsCall(cfg, s, step);
    if StepCall(s, step) != [] {
      CallGrows(s.sh.db, StepCall(s, step)[0]);
    }
  }

  lemma {:induction false} RunGrows(cfg: Config, s: State, steps: seq<Step>)
    requires Inv(s) && IsRun(cfg, s, steps)
    ensures Grows(s.sh.db, Run(cfg, s, steps).sh.db)
    decreases |steps|
  {
    if steps != [] {
      StepGrows(cfg, s, steps[0]);
      StepKeeps(cfg, s, steps[0]);
      RunGrows(cfg, Next(cfg, s, steps[0]), steps[1..]);
      GrowsOn(s.sh.db, Next(cfg, s, steps[0]).sh.db, Run(cfg, s, steps).sh.db);
    }
  }

  lemma GrowsOn(a: Db, b: Db, c: Db)
    requires Grows(a, b) && Grows(b, c)
    ensures Grows(a, c)
  {
  }

  lemma LogGrowsByOne(cfg: Config, s: State, step: Step)
    requires Inv(s) && Enabled(s, step)
    ensures s.sh.db.log <= Next(cfg, s, step).sh.db.log && |Next(cfg, s, step).sh.db.log| <= |s.sh.db.log| + 1
  {
    StepIsCall(cfg, s, step);
    if StepCall(s, step) != [] {
      CallLogs(s.sh.db, StepCall(s, step)[0]);
    }
  }

  /** The database of a run is what its store calls made of it, and every call to
      `requeue` among them passes the guard of `reconcile`, stale snapshot or not. */
  lemma {:induction false} RunIsCalls(cfg: Config, s: State, steps: seq<Step>)
    requires Inv(s) && IsRun(cfg, s, steps)
    ensures Run(cfg, s, steps).sh.db == ExecAll(s.sh.db, RunCalls(cfg, s, steps))
    ensures AllProper(RunCalls(cfg, s, steps)) && AllGuarded(s.sh.db, RunCalls(cfg, s, steps))
    decreases |steps|
  {
    if steps != [] {
      var s' := Next(cfg, s, steps[0]);
      StepIsCall(cfg, s, steps[0]);
      StepKeeps(cfg, s, steps[0]);
      RunIsCalls(cfg, s', steps[1..]);
      CallFirst(s.sh.db, StepCall(s, steps[0]), RunCalls(cfg, s', steps[1..]));
    }
  }

  // ---------- exactly-once termination ----------

  /** At any point of any run, a terminal task has exactly one terminal event, which
      tells its status and reason; any other task has none. And from then on, whatever
      follows, that row and that event stay as they are. */
  lemma ExactlyOnce(cfg: Config, steps: seq<Step>, later: seq<Step>, t: TaskId)
    requires IsRun(cfg, Init(cfg), steps) && IsRun(cfg, Run(cfg, Init(cfg), steps), later)
    ensures var now := Run(cfg, Init(cfg), steps).sh.db;
            var then_ := Run(cfg, Run(cfg, Init(cfg), steps), later).sh.db;
            && (t in now.tasks ==> Accounted(Endings(now.log, t), now.tasks[t]))
            && (t !in now.tasks ==> Endings(now.log, t) == [])
            && (t in now.tasks && IsTerminal(now.tasks[t].status) ==>
                  && t in then_.tasks && then_.tasks[t].status == now.tasks[t].status
                  && then_.tasks[t].failureReason == now.tasks[t].failureReason
                  && Endings(then_.log, t) == Endings(now.log, t))
  {
    InitHolds(cfg);
    RunKeeps(cfg, Init(cfg), steps);
    var s := Run(cfg, Init(cfg), steps);
    if t in s.sh.db.tasks && IsTerminal(s.sh.db.tasks[t].status) {
      RunIsCalls(cfg, s, later);
      TerminalIsForever(s.sh.db, RunCalls(cfg, s, later), t);
    }
  }

  // ---------- fencing ----------

  /** The successful status changes of a task, over a whole run, are
      (claim requeue)* followed by nothing, claim, claim finish, claim fail_exhausted or
      cancel_queued, with attempt numbers 1, 2, 3, ...; they account for the row. */
  lemma Fencing(cfg: Config, steps: seq<Step>, t: TaskId) returns (retries: nat)
    requires IsRun(cfg, Init(cfg), steps)
    ensures var w := Word(EMPTY, RunCalls(cfg, Init(cfg), steps), t);
            && 2 * retries <= |w| && w[..2 * retries] == Retries(0, retries) && LastLeg(w[2 * retries..], retries)
            && (forall i, j :: 0 <= i < j < |w| && SameSide(w[i], w[j]) ==> w[i].attempt < w[j].attempt)
            && var tasks := Run(cfg, Init(cfg), steps).sh.db.tasks;
               t in tasks ==> tasks[t].status == StatusAfter(w, Queued) && tasks[t].attempt == Claims(w)
  {
    InitHolds(cfg);
    RunIsCalls(cfg, Init(cfg), steps);
    retries := HistoryOf(RunCalls(cfg, Init(cfg), steps), t);
  }

  /** No task is ever stuck, and from any reachable state on, a task with at least one
      attempt changes status at most `2 * max_attempts` times. */
  lemma NeverStuck(cfg: Config, steps: seq<Step>, later: seq<Step>, t: TaskId)
    requires IsRun(cfg, Init(cfg), steps) && IsRun(cfg, Run(cfg, Init(cfg), steps), later)
    requires t in Run(cfg, Init(cfg), steps).sh.db.tasks
    ensures var s := Run(cfg, Init(cfg), steps); var row := s.sh.db.tasks[t];
            && Claimable(row)
            && (row.maxAttempts >= 1 ==> |Word(s.sh.db, RunCalls(cfg, s, later), t)| <= 2 * row.maxAttempts)
  {
    InitHolds(cfg);
    RunKeeps(cfg, Init(cfg), steps);
    var s := Run(cfg, Init(cfg), steps);
    RunIsCalls(cfg, s, later);
    if s.sh.db.tasks[t].maxAttempts >= 1 {
      ChangesAreBounded(s.sh.db, RunCalls(cfg, s, later), t);
    }
  }

  /** In any reachable state a row says `retries_exhausted` exactly when the task's last
      change was `fail_exhausted`; and then it was claimed exactly `max_attempts` times, and
      requeued after each attempt but the last. */
  lemma ExhaustedMeans(cfg: Config, steps: seq<Step>, t: TaskId)
    requires IsRun(cfg, Init(cfg), steps) && t in Run(cfg, Init(cfg), steps).sh.db.tasks
    ensures var w := Word(EMPTY, RunCalls(cfg, Init(cfg), steps), t);
            var row := Run(cfg, Init(cfg), steps).sh.db.tasks[t];
            && (row.failureReason == Some(RetriesExhausted) <==> EndsExhausted(w))
            && (EndsExhausted(w) ==>
                  row.status == Failed && 1 <= row.maxAttempts == row.attempt && w == UsedUp(row.maxAttempts))
  {
    InitHolds(cfg);
    RunIsCalls(cfg, Init(cfg), steps);
    ExhaustedHistory(RunCalls(cfg, Init(cfg), steps), t);
  }

  /** A task that is over although no attempt finished and nobody cancelled it while it was
      queued has failed with `retries_exhausted`, after exactly `max_attempts` claims. */
  lemma CrashedTaskExhausts(cfg: Config, steps: seq<Step>, t: TaskId)
    requires IsRun(cfg, Init(cfg), steps) && t in Run(cfg, Init(cfg), steps).sh.db.tasks
    requires IsTerminal(Run(cfg, Init(cfg), steps).sh.db.tasks[t].status)
    requires OnlyCrashes(Word(EMPTY, RunCalls(cfg, Init(cfg), steps), t))
    ensures var row := Run(cfg, Init(cfg), steps).sh.db.tasks[t];
            && row.status == Failed && row.failureReason == Some(RetriesExhausted)
            && 1 <= row.maxAttempts == row.attempt
            && Word(EMPTY, RunCalls(cfg, Init(cfg), steps), t) == UsedUp(row.maxAttempts)
  {
    InitHolds(cfg);
    RunIsCalls(cfg, Init(cfg), steps);
    CrashesExhaust(RunCalls(cfg, Init(cfg), steps), t);
  }

  // ---------- the event log ----------

  /** In every reachable state, for every attempt: at most one `job.started`; every other
      non-terminal event comes after it; the event written by `finish` comes after all of
      them, even with stale workers still emitting; no event is from an attempt beyond the
      row's; and a task is `cancelled` only on request. */
  lemma HonestHistory(cfg: Config, steps: seq<Step>)
    requires IsRun(cfg, Init(cfg), steps)
    ensures var db := Run(cfg, Init(cfg), steps).sh.db;
            && OrderedLog(db.log) && HonestLog(db) && NoneAhead(db)
            && (forall t :: t in db.tasks && db.tasks[t].status == Cancelled && !db.tasks[t].cancelRequested ==>
                  |Endings(db.log, t)| == 1 && !IsFinish(Endings(db.log, t)[0]))
  {
    InitHolds(cfg);
    RunKeeps(cfg, Init(cfg), steps);
    var db := Run(cfg, Init(cfg), steps).sh.db;
    forall t | t in db.tasks && db.tasks[t].status == Cancelled && !db.tasks[t].cancelRequested
      ensures |Endings(db.log, t)| == 1 && !IsFinish(Endings(db.log, t)[0])
    {
      assert Accounted(Endings(db.log, t), db.tasks[t]);
      EndingIsLogged(db.log, t);
    }
  }

  lemma {:induction false} EndingIsLogged(log: seq<Event>, t: TaskId)
    ensures forall i :: 0 <= i < |Endings(log, t)| ==>
              Endings(log, t)[i] in log && Endings(log, t)[i].taskId == t && Closes(Endings(log, t)[i])
  {
    if log != [] {
      EndingIsLogged(log[..|log| - 1], t);
      assert log == log[..|log| - 1] + [log[|log| - 1]];
    }
  }

  /** Every event ever published is a persisted row. */
  lemma PublishedIsPersisted(cfg: Config, steps: seq<Step>)
    requires IsRun(cfg, Init(cfg), steps)
    ensures var sh := Run(cfg, Init(cfg), steps).sh;
            forall i :: 0 <= i < |sh.published| ==> Logged(sh.db.log, sh.published[i])
  {
    InitHolds(cfg);
    RunKeeps(cfg, Init(cfg), steps);
  }
}

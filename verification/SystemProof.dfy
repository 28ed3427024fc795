/** The invariant of the platform and its proof: each process keeps a local assertion
    about its own attempt, and no step of another process can invalidate it. */
module SystemProof {
  import opened Models
  import opened Database
  import opened History
  import opened System

  // ---------- what is true of the log ----------

  predicate IsFinish(e: Event) {
    Closes(e) && e.payload.End? && e.payload.artifacts.Some?
  }

  /** Events that only the worker running attempt `a` of `t` writes. (A requeue-or-fail
      pass of another worker may write a terminal event for the same attempt.) */
  predicate Own(e: Event, t: TaskId, a: nat) {
    e.taskId == t && e.attempt == a && (!Closes(e) || IsFinish(e))
  }

  predicate Untouched(log: seq<Event>, t: TaskId, a: nat) {
    forall i :: 0 <= i < |log| ==> !Own(log[i], t, a)
  }

  predicate StartedBefore(log: seq<Event>, n: int, t: TaskId, a: nat) {
    exists i :: 0 <= i < n && i < |log| && log[i].taskId == t && log[i].attempt == a && log[i].kind == JobStarted
  }

  predicate NotFinished(log: seq<Event>, t: TaskId, a: nat) {
    forall i :: 0 <= i < |log| && log[i].taskId == t && log[i].attempt == a ==> !IsFinish(log[i])
  }

  /** At most one `job.started` per attempt; it precedes all other non-terminal events
      of the attempt; and the event written by `finish` follows them all. */
  predicate OrderedLog(log: seq<Event>) {
    && (forall i, j :: 0 <= i < j < |log| && log[i].taskId == log[j].taskId && log[i].attempt == log[j].attempt ==>
          !(log[j].kind == JobStarted && log[i].kind == JobStarted)
          && !(IsFinish(log[i]) && !Closes(log[j])))
    && (forall i :: 0 <= i < |log| && !Closes(log[i]) && log[i].kind != JobStarted ==>
          StartedBefore(log, i, log[i].taskId, log[i].attempt))
  }

  /** No event is from an attempt that the row has not reached, and a worker only
      reports `cancelled` for a task whose cancellation was requested. */
  predicate HonestLog(db: Db) {
    forall i :: 0 <= i < |db.log| && (!Closes(db.log[i]) || IsFinish(db.log[i])) ==>
      var e := db.log[i];
      && e.taskId in db.tasks && 1 <= e.attempt <= db.tasks[e.taskId].attempt
      && (IsFinish(e) && e.payload.status == Cancelled ==> db.tasks[e.taskId].cancelRequested)
  }

  /** No event at all is ahead of its row; a request's cancellation is logged as attempt 0. */
  predicate NoneAhead(db: Db) {
    forall i :: 0 <= i < |db.log| ==>
      db.log[i].taskId in db.tasks && db.log[i].attempt <= db.tasks[db.log[i].taskId].attempt
  }

  predicate Logged(log: seq<Event>, e: Event) {
    1 <= e.id <= |log| && log[e.id - 1] == e
  }

  // ---------- the local assertions ----------

  predicate StageOk(log: seq<Event>, t: TaskId, a: nat, stop: Option<Reason>, stage: Stage) {
    match stage
    case Starting => Untouched(log, t, a)
    case StartPublish(e) => Logged(log, e) && StartedBefore(log, |log|, t, a) && NotFinished(log, t, a)
    case Working => StartedBefore(log, |log|, t, a) && NotFinished(log, t, a)
    case EmitPublish(e) => Logged(log, e) && StartedBefore(log, |log|, t, a) && NotFinished(log, t, a)
    case UsageDue(_, r) => NotFinished(log, t, a) && Concludes(stop, r)
    case FinishDue(r) => NotFinished(log, t, a) && Concludes(stop, r)
  }

  predicate Attempts(db: Db, task: Task, stop: Option<Reason>, stage: Stage) {
    && task.id in db.tasks && 1 <= task.attempt <= db.tasks[task.id].attempt
    && (stop == None || stop == Some(UserCancelled) || stop == Some(TimedOut))
    && (stop == Some(UserCancelled) ==> db.tasks[task.id].cancelRequested)
    && StageOk(db.log, task.id, task.attempt, stop, stage)
  }

  predicate Known(db: Db, t: Task) {
    t.id in db.tasks && db.tasks[t.id].maxAttempts == t.maxAttempts
  }

  predicate AllKnown(db: Db, todo: seq<Task>) {
    forall i :: 0 <= i < |todo| ==> Known(db, todo[i])
  }

  predicate WorkerOk(db: Db, me: Worker) {
    match me
    case Surveying(todo) => AllKnown(db, todo)
    case Mending(t, todo) => Known(db, t) && AllKnown(db, todo)
    case MendEnqueue(_, todo) => AllKnown(db, todo)
    case MendPublish(e, todo) => Logged(db.log, e) && AllKnown(db, todo)
    case Attempting(task, _, stop, stage) => Attempts(db, task, stop, stage)
    case EndPublish(e, _, _) => Logged(db.log, e)
    case _ => true
  }

  predicate HandlerOk(db: Db, me: Handler) {
    me.CancelPublish? ==> Logged(db.log, me.e)
  }

  predicate SameAttempt(a: Worker, b: Worker) {
    a.Attempting? && b.Attempting? && a.task.id == b.task.id && a.task.attempt == b.task.attempt
  }

  // ---------- the invariant ----------

  ghost predicate DbOk(db: Db) {
    && Sound(db) && OrderedLog(db.log) && HonestLog(db) && NoneAhead(db)
    && (forall t :: t in db.tasks ==> Claimable(db.tasks[t]))
  }

  ghost predicate WorkersOk(db: Db, workers: map<WorkerId, Worker>) {
    && (forall w :: w in workers ==> WorkerOk(db, workers[w]))
    && (forall v, w :: v in workers && w in workers && v != w ==> !SameAttempt(workers[v], workers[w]))
  }

  ghost predicate Inv(s: State) {
    && DbOk(s.sh.db)
    && WorkersOk(s.sh.db, s.workers)
    && (forall h :: h in s.handlers ==> HandlerOk(s.sh.db, s.handlers[h]))
    && (forall i :: 0 <= i < |s.sh.published| ==> Logged(s.sh.db.log, s.sh.published[i]))
  }

  // ---------- one call ----------

  /** Does this call write events of attempt `a` of `t` as its worker does? */
  predicate Writes(c: Call, t: TaskId, a: nat) {
    (c.DoAppend? || c.DoFinish?) && c.id == t && c.attempt == a
  }

  /** The database only grows. */
  predicate Grows(db: Db, db': Db) {
    && db.log <= db'.log
    && (forall t :: t in db.tasks ==>
          && t in db'.tasks && db.tasks[t].attempt <= db'.tasks[t].attempt
          && db.tasks[t].maxAttempts == db'.tasks[t].maxAttempts
          && (db.tasks[t].cancelRequested ==> db'.tasks[t].cancelRequested))
  }

  lemma CallKeepsRow(db: Db, c: Call, t: TaskId)
    requires Keyed(db.tasks) && t in db.tasks
    ensures t in Exec(db, c).tasks
    ensures var row, row' := db.tasks[t], Exec(db, c).tasks[t];
            row.attempt <= row'.attempt && row.maxAttempts == row'.maxAttempts
            && (row.cancelRequested ==> row'.cancelRequested)
  {
  }

  /** A call logs at most one event, and only the calls of an attempt's own worker log one
      of the attempt's own events. */
  lemma CallLogs(db: Db, c: Call)
    ensures db.log <= Exec(db, c).log && |Exec(db, c).log| <= |db.log| + 1
    ensures Proper(c) && |Exec(db, c).log| == |db.log| + 1 ==>
              forall t, a :: Own(Exec(db, c).log[|db.log|], t, a) ==> Writes(c, t, a)
  {
  }

  lemma CallGrows(db: Db, c: Call)
    requires Keyed(db.tasks)
    ensures Grows(db, Exec(db, c))
  {
    CallLogs(db, c);
    forall t | t in db.tasks
      ensures t in Exec(db, c).tasks
      ensures var row, row' := db.tasks[t], Exec(db, c).tasks[t];
              row.attempt <= row'.attempt && row.maxAttempts == row'.maxAttempts
              && (row.cancelRequested ==> row'.cancelRequested)
    {
      CallKeepsRow(db, c, t);
    }
  }

  /** What the other processes' assertions need to know about a call. */
  predicate Spares(db: Db, db': Db, t: TaskId, a: nat) {
    Grows(db, db') && forall i :: |db.log| <= i < |db'.log| ==> !Own(db'.log[i], t, a)
  }

  lemma CallSpares(db: Db, c: Call, t: TaskId, a: nat)
    requires Keyed(db.tasks) && Proper(c) && !Writes(c, t, a)
    ensures Spares(db, Exec(db, c), t, a)
  {
    CallGrows(db, c);
    CallLogs(db, c);
  }

  lemma StageKept(db: Db, db': Db, t: TaskId, a: nat, stop: Option<Reason>, stage: Stage)
    requires Spares(db, db', t, a) && StageOk(db.log, t, a, stop, stage)
    ensures StageOk(db'.log, t, a, stop, stage)
  {
    assert forall i :: 0 <= i < |db.log| ==> db'.log[i] == db.log[i];
    if StartedBefore(db.log, |db.log|, t, a) {
      StartedKept(db.log, db'.log, |db.log|, t, a);
    }
  }

  lemma StartedKept(log: seq<Event>, log': seq<Event>, n: int, t: TaskId, a: nat)
    requires log <= log' && StartedBefore(log, n, t, a)
    ensures StartedBefore(log', n, t, a) && StartedBefore(log', |log'|, t, a)
  {
    var i :| 0 <= i < n && i < |log| && log[i].taskId == t && log[i].attempt == a && log[i].kind == JobStarted;
    assert log'[i] == log[i];
  }

  lemma WorkerKept(db: Db, db': Db, me: Worker)
    requires Grows(db, db') && WorkerOk(db, me)
    requires me.Attempting? ==> Spares(db, db', me.task.id, me.task.attempt)
    ensures WorkerOk(db', me)
  {
    if me.Attempting? {
      StageKept(db, db', me.task.id, me.task.attempt, me.stop, me.stage);
    }
  }

  /** What the protocol guarantees about every call it makes. */
  predicate Licensed(db: Db, c: Call) {
    && Proper(c) && Guarded(db, c)
    && match c
       case DoAppend(t, a, kind, _) =>
         && t in db.tasks && 1 <= a <= db.tasks[t].attempt && NotFinished(db.log, t, a)
         && (if kind == JobStarted then Untouched(db.log, t, a) else StartedBefore(db.log, |db.log|, t, a))
       case DoFinish(t, a, r) =>
         t in db.tasks && 1 <= a && r.artifacts.Some? && (r.status == Cancelled ==> db.tasks[t].cancelRequested)
       case _ => true
  }

  lemma OrderedPlus(log: seq<Event>, e: Event)
    requires OrderedLog(log)
    requires !Closes(e) ==> NotFinished(log, e.taskId, e.attempt)
    requires e.kind == JobStarted ==> Untouched(log, e.taskId, e.attempt)
    requires !Closes(e) && e.kind != JobStarted ==> StartedBefore(log, |log|, e.taskId, e.attempt)
    ensures OrderedLog(log + [e])
  {
    var log' := log + [e];
    forall i | 0 <= i < |log'| && !Closes(log'[i]) && log'[i].kind != JobStarted
      ensures StartedBefore(log', i, log'[i].taskId, log'[i].attempt)
    {
      StartedKept(log, log', i, log'[i].taskId, log'[i].attempt);
    }
  }

  lemma OrderedKept(db: Db, c: Call)
    requires OrderedLog(db.log) && Licensed(db, c)
    ensures OrderedLog(Exec(db, c).log)
  {
    var log' := Exec(db, c).log;
    if log' != db.log {
      OrderedPlus(db.log, log'[|db.log|]);
      assert log' == db.log + [log'[|db.log|]];
    }
  }

  lemma HonestKept(db: Db, c: Call)
    requires Keyed(db.tasks) && HonestLog(db) && Licensed(db, c)
    ensures HonestLog(Exec(db, c))
  {
    CallGrows(db, c);
    var news := LogStep(db, c);
  }

  lemma NoneAheadKept(db: Db, c: Call)
    requires Keyed(db.tasks) && NoneAhead(db) && Licensed(db, c)
    ensures NoneAhead(Exec(db, c))
  {
    CallGrows(db, c);
    var log' := Exec(db, c).log;
    forall i | 0 <= i < |log'|
      ensures log'[i].taskId in Exec(db, c).tasks && log'[i].attempt <= Exec(db, c).tasks[log'[i].taskId].attempt
    {
      if i < |db.log| {
        assert log'[i] == db.log[i];
      }
    }
  }

  lemma DbKept(db: Db, c: Call)
    requires DbOk(db) && Licensed(db, c)
    ensures DbOk(Exec(db, c))
  {
    SoundStep(db, c);
    OrderedKept(db, c);
    HonestKept(db, c);
    NoneAheadKept(db, c);
    forall t | t in Exec(db, c).tasks ensures Claimable(Exec(db, c).tasks[t]) {
      if t in db.tasks {
        GuardedKeepsClaimable(db, c, t);
      } else {
        BeforeCreation(db, c, t);
      }
    }
  }

  // ---------- one step of a worker ----------

  lemma MoveIsCall(self: WorkerId, cap: int, sh: Shared, me: Worker, a: Action)
    requires WorkerCan(sh, me, a)
    ensures |WorkerCall(self, me, a)| <= 1
    ensures WorkerMove(self, cap, sh, me, a).0.db ==
            if WorkerCall(self, me, a) == [] then sh.db else Exec(sh.db, WorkerCall(self, me, a)[0])
  {
  }

  lemma CallIsLicensed(self: WorkerId, sh: Shared, me: Worker, a: Action)
    requires WorkerOk(sh.db, me) && WorkerCan(sh, me, a) && WorkerCall(self, me, a) != []
    ensures Licensed(sh.db, WorkerCall(self, me, a)[0])
  {
  }

  lemma LoggedAppend(db: Db, t: TaskId, a: nat, kind: EventKind, payload: Payload)
    requires Numbered(db.log) && !EndsJob(kind)
    ensures var (db', e) := Append(db, t, a, kind, payload);
            Logged(db'.log, e) && Grows(db, db')
            && (kind == JobStarted || StartedBefore(db.log, |db.log|, t, a) ==> StartedBefore(db'.log, |db'.log|, t, a))
            && (NotFinished(db.log, t, a) ==> NotFinished(db'.log, t, a))
  {
    var (db', e) := Append(db, t, a, kind, payload);
    assert db'.log[|db.log|] == e;
    if StartedBefore(db.log, |db.log|, t, a) {
      StartedKept(db.log, db'.log, |db.log|, t, a);
    }
  }

  lemma FreshAttempt(db: Db, id: TaskId, worker: WorkerId)
    requires HonestLog(db) && Claim(db, id, worker).1.Some? && Keyed(db.tasks)
    ensures Attempts(Claim(db, id, worker).0, Claim(db, id, worker).1.value, None, Starting)
  {
  }

  /** What the local assertions need to know about the database. */
  predicate Sane(db: Db) {
    Keyed(db.tasks) && Numbered(db.log) && HonestLog(db)
  }

  lemma OwnStage(sh: Shared, task: Task, token: Token, stop: Option<Reason>, stage: Stage)
    requires Keyed(sh.db.tasks) && Numbered(sh.db.log) && Attempts(sh.db, task, stop, stage) && !stage.Working?
    ensures var (sh', me') := AttemptAdvance(sh, task, token, stop, stage); WorkerOk(sh'.db, me')
  {
    match stage
    case Starting => LoggedAppend(sh.db, task.id, task.attempt, JobStarted, StartedBody(task));
    case UsageDue(usage, _) =>
      CallGrows(sh.db, DoAddUsage(task.id, usage));
    case _ =>
  }

  lemma OwnMending(self: WorkerId, cap: int, sh: Shared, t: Task, todo: seq<Task>)
    requires Keyed(sh.db.tasks) && Numbered(sh.db.log) && WorkerOk(sh.db, Mending(t, todo))
    ensures var (sh', me') := WorkerAdvance(self, cap, sh, Mending(t, todo)); WorkerOk(sh'.db, me')
  {
    if t.attempt < t.maxAttempts {
      CallGrows(sh.db, DoRequeue(t.id, t.attempt));
    } else {
      CallGrows(sh.db, DoFail(t.id, t.attempt));
    }
  }

  lemma OwnAdvance(self: WorkerId, cap: int, sh: Shared, me: Worker)
    requires Sane(sh.db) && WorkerOk(sh.db, me) && WorkerCan(sh, me, Advance)
    ensures var (sh', me') := WorkerAdvance(self, cap, sh, me); WorkerOk(sh'.db, me')
  {
    if me.Attempting? {
      OwnStage(sh, me.task, me.token, me.stop, me.stage);
    } else if me.Leased? {
      if Claim(sh.db, me.id, self).1.Some? { FreshAttempt(sh.db, me.id, self); }
    } else if me.Mending? {
      OwnMending(self, cap, sh, me.t, me.todo);
    }
  }

  lemma OwnAssertion(self: WorkerId, cap: int, sh: Shared, me: Worker, a: Action)
    requires Sane(sh.db) && WorkerOk(sh.db, me) && WorkerCan(sh, me, a)
    ensures var (sh', me') := WorkerMove(self, cap, sh, me, a); WorkerOk(sh'.db, me')
  {
    match a
    case Advance => OwnAdvance(self, cap, sh, me);
    case Emit(kind, json) => LoggedAppend(sh.db, me.task.id, me.task.attempt, kind, Body(json));
    case _ =>
  }

  // ---------- one step of the whole ----------

  /** A claim hands out an attempt number that nobody has. */
  lemma OthersDiffer(self: WorkerId, cap: int, sh: Shared, me: Worker, a: Action, other: Worker)
    requires WorkerCan(sh, me, a) && WorkerOk(sh.db, other) && !SameAttempt(me, other) && Keyed(sh.db.tasks)
    ensures !SameAttempt(WorkerMove(self, cap, sh, me, a).1, other)
  {
    if other.Attempting? {
      assert other.task.attempt <= sh.db.tasks[other.task.id].attempt;
    }
  }

  /** A worker's call writes events of no attempt but its own. */
  lemma OthersSpared(sh: Shared, me: Worker, c: Call, other: Worker)
    requires Keyed(sh.db.tasks) && Proper(c) && WorkerOk(sh.db, other) && !SameAttempt(me, other)
    requires forall t, n :: Writes(c, t, n) ==> me.Attempting? && me.task.id == t && me.task.attempt == n
    ensures WorkerOk(Exec(sh.db, c), other)
  {
    CallGrows(sh.db, c);
    if other.Attempting? {
      assert !Writes(c, other.task.id, other.task.attempt);
      CallSpares(sh.db, c, other.task.id, other.task.attempt);
    }
    WorkerKept(sh.db, Exec(sh.db, c), other);
  }

  lemma HandlersKept(db: Db, db': Db, handlers: map<nat, Handler>, published: seq<Event>)
    requires db.log <= db'.log
    requires forall h :: h in handlers ==> HandlerOk(db, handlers[h])
    requires forall i :: 0 <= i < |published| ==> Logged(db.log, published[i])
    ensures forall h :: h in handlers ==> HandlerOk(db', handlers[h])
    ensures forall i :: 0 <= i < |published| ==> Logged(db'.log, published[i])
  {
  }

  lemma PublishesLogged(self: WorkerId, cap: int, sh: Shared, me: Worker, a: Action)
    requires WorkerOk(sh.db, me) && WorkerCan(sh, me, a)
    requires forall i :: 0 <= i < |sh.published| ==> Logged(sh.db.log, sh.published[i])
    ensures var sh' := WorkerMove(self, cap, sh, me, a).0;
            sh.published <= sh'.published
            && forall i :: 0 <= i < |sh'.published| ==> Logged(sh.db.log, sh'.published[i])
  {
  }

  lemma MoveKeepsDb(self: WorkerId, cap: int, sh: Shared, me: Worker, a: Action)
    requires DbOk(sh.db) && WorkerOk(sh.db, me) && WorkerCan(sh, me, a)
    ensures var db' := WorkerMove(self, cap, sh, me, a).0.db; DbOk(db') && Grows(sh.db, db')
  {
    MoveIsCall(self, cap, sh, me, a);
    if WorkerCall(self, me, a) != [] {
      CallIsLicensed(self, sh, me, a);
      DbKept(sh.db, WorkerCall(self, me, a)[0]);
      CallGrows(sh.db, WorkerCall(self, me, a)[0]);
    }
  }

  lemma OtherKept(self: WorkerId, cap: int, sh: Shared, me: Worker, a: Action, other: Worker)
    requires Keyed(sh.db.tasks) && WorkerOk(sh.db, me) && WorkerCan(sh, me, a)
    requires WorkerOk(sh.db, other) && !SameAttempt(me, other)
    ensures var (sh', me') := WorkerMove(self, cap, sh, me, a);
            WorkerOk(sh'.db, other) && !SameAttempt(me', other)
  {
    MoveIsCall(self, cap, sh, me, a);
    OthersDiffer(self, cap, sh, me, a, other);
    if WorkerCall(self, me, a) != [] {
      CallIsLicensed(self, sh, me, a);
      OthersSpared(sh, me, WorkerCall(self, me, a)[0], other);
    }
  }

  lemma WorkerReplaced(db: Db, db': Db, workers: map<WorkerId, Worker>, w: WorkerId, me: Worker)
    requires WorkersOk(db, workers) && w in workers && WorkerOk(db', me)
    requires forall v :: v in workers && v != w ==> WorkerOk(db', workers[v]) && !SameAttempt(me, workers[v])
    ensures WorkersOk(db', workers[w := me])
  {
  }

  /** All workers, after one step of worker `w`. */
  lemma WorkersKept(cap: int, sh: Shared, workers: map<WorkerId, Worker>, w: WorkerId, a: Action)
    requires DbOk(sh.db) && WorkersOk(sh.db, workers) && w in workers && WorkerCan(sh, workers[w], a)
    ensures var (sh', me') := WorkerMove(w, cap, sh, workers[w], a); WorkersOk(sh'.db, workers[w := me'])
  {
    var (sh', me') := WorkerMove(w, cap, sh, workers[w], a);
    OwnAssertion(w, cap, sh, workers[w], a);
    forall v | v in workers && v != w
      ensures WorkerOk(sh'.db, workers[v]) && !SameAttempt(me', workers[v])
    {
      OtherKept(w, cap, sh, workers[w], a, workers[v]);
    }
    WorkerReplaced(sh.db, sh'.db, workers, w, me');
  }

  lemma WorkerStepKeeps(cfg: Config, s: State, w: WorkerId, a: Action)
    requires Inv(s) && Enabled(s, WorkerStep(w, a))
    ensures Inv(Next(cfg, s, WorkerStep(w, a)))
  {
    MoveKeepsDb(w, cfg.cap, s.sh, s.workers[w], a);
    WorkersKept(cfg.cap, s.sh, s.workers, w, a);
    PublishesLogged(w, cfg.cap, s.sh, s.workers[w], a);
    var sh' := WorkerMove(w, cfg.cap, s.sh, s.workers[w], a).0;
    HandlersKept(s.sh.db, sh'.db, s.handlers, sh'.published);
  }

  /** A call of an API request: it is licensed and writes no worker's events. */
  lemma ApiCallKeeps(s: State, c: Call)
    requires Inv(s) && (c.DoCreate? || c.DoCancelQueued? || c.DoRequestCancel?)
    ensures Inv(s.(sh := s.sh.(db := Exec(s.sh.db, c))))
  {
    var db' := Exec(s.sh.db, c);
    DbKept(s.sh.db, c);
    CallGrows(s.sh.db, c);
    forall w | w in s.workers ensures WorkerOk(db', s.workers[w]) {
      var me := s.workers[w];
      if me.Attempting? {
        CallSpares(s.sh.db, c, me.task.id, me.task.attempt);
      }
      WorkerKept(s.sh.db, db', me);
    }
    HandlersKept(s.sh.db, db', s.handlers, s.sh.published);
  }

  lemma PublishKeeps(s: State, e: Event)
    requires Inv(s) && Logged(s.sh.db.log, e)
    ensures Inv(s.(sh := s.sh.(published := s.sh.published + [e])))
  {
  }

  /** No part of the invariant rests on the queue. */
  lemma QueueIsFree(s: State, queue: seq<TaskId>)
    requires Inv(s)
    ensures Inv(s.(sh := s.sh.(queue := queue)))
  {
  }

  lemma HandlerReplaced(s: State, h: nat, me: Handler)
    requires Inv(s) && HandlerOk(s.sh.db, me)
    ensures Inv(s.(handlers := s.handlers[h := me]))
  {
  }

  lemma HandlerOwn(sh: Shared, me: Handler)
    requires Numbered(sh.db.log) && HandlerOk(sh.db, me)
    ensures var (sh', me') := HandlerMove(sh, me); HandlerOk(sh'.db, me')
  {
  }

  lemma HandlerDoes(sh: Shared, me: Handler)
    ensures var sh' := HandlerMove(sh, me).0;
            sh' == if HandlerCall(me) != [] then sh.(db := Exec(sh.db, HandlerCall(me)[0]))
                   else if me.CancelPublish? then sh.(published := sh.published + [me.e])
                   else sh.(queue := sh'.queue)
    ensures HandlerCall(me) != [] ==> HandlerCall(me)[0].DoCancelQueued? || HandlerCall(me)[0].DoRequestCancel?
  {
  }

  lemma HandlerMoveKeeps(s: State, me: Handler)
    requires Inv(s) && HandlerOk(s.sh.db, me)
    ensures Inv(s.(sh := HandlerMove(s.sh, me).0))
  {
    var sh' := HandlerMove(s.sh, me).0;
    HandlerDoes(s.sh, me);
    if HandlerCall(me) != [] {
      ApiCallKeeps(s, HandlerCall(me)[0]);
    } else if me.CancelPublish? {
      PublishKeeps(s, me.e);
    } else {
      QueueIsFree(s, sh'.queue);
    }
  }

  lemma HandlerStepKeeps(cfg: Config, s: State, h: nat)
    requires Inv(s) && Enabled(s, HandlerStep(h))
    ensures Inv(Next(cfg, s, HandlerStep(h)))
  {
    var (sh', me') := HandlerMove(s.sh, s.handlers[h]);
    HandlerMoveKeeps(s, s.handlers[h]);
    HandlerOwn(s.sh, s.handlers[h]);
    HandlerReplaced(s.(sh := sh'), h, me');
  }

  lemma StepKeeps(cfg: Config, s: State, step: Step)
    requires Inv(s) && Enabled(s, step)
    ensures Inv(Next(cfg, s, step))
  {
    match step
    case WorkerStep(w, a) => WorkerStepKeeps(cfg, s, w, a);
    case Submit(h, id, prompt, key, maxAttempts) => ApiCallKeeps(s, DoCreate(id, prompt, key, maxAttempts));
    case AskCancel(_, _) =>
    case HandlerStep(h) => HandlerStepKeeps(cfg, s, h);
    case RedisLoss(_, _) =>
  }

  lemma InitHolds(cfg: Config)
    ensures Inv(Init(cfg))
  {
  }

  lemma {:induction false} RunKeeps(cfg: Config, s: State, steps: seq<Step>)
    requires Inv(s) && IsRun(cfg, s, steps)
    ensures Inv(Run(cfg, s, steps))
    decreases |steps|
  {
    if steps != [] {
      StepKeeps(cfg, s, steps[0]);
      RunKeeps(cfg, Next(cfg, s, steps[0]), steps[1..]);
    }
  }
}

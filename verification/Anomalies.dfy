/** Runs that show what can happen, and so what the platform does not promise. In all of
    them only leases expire; nothing else happens to Redis. */
module Anomalies {
  import opened Models
  import opened Database
  import opened Reconcile
  import opened System
  import opened SystemProof
  import opened Blocks
  import opened Undisturbed
  import opened Stocked
  import opened Stream
  import opened Follow
  import opened Publishing

  /** The only row, at work on its first attempt without a lease. */
  predicate Orphan(db: Db, id: TaskId) {
    && db.tasks.Keys == {id} && db.tasks[id].id == id
    && db.tasks[id].status == Running && db.tasks[id].attempt < db.tasks[id].maxAttempts
  }

  /** An undisturbed pass puts an orphan back into the queue and publishes nothing. */
  lemma OrphanRequeued(self: WorkerId, cap: int, sh: Shared, id: TaskId)
    returns (acts: seq<Action>, sh': Shared, inRedis: set<TaskId>)
    requires Orphan(sh.db, id) && sh.queue == [] && sh.leases == map[]
    ensures Alone(self, cap, sh, Idle, acts, sh', Repushing(inRedis, []))
    ensures sh' == Shared(Requeue(sh.db, id, sh.db.tasks[id].attempt).0, [id], map[], sh.published)
  {
    acts, sh', inRedis := PassCanBeMade(self, cap, sh);
    var stats := UndisturbedPass(self, cap, sh, acts, sh', Repushing(inRedis, []));
    OrphanPass(sh.db, id, sh'.db, sh'.queue, stats);
    NothingPublished(sh.published, sh'.db.log, sh'.published);
  }

  lemma OrphanPass(db: Db, id: TaskId, db': Db, queue': seq<TaskId>, stats: Stats)
    requires Orphan(db, id) && Pass(db, [], map[], db', queue', stats)
    ensures db' == Requeue(db, id, db.tasks[id].attempt).0 && queue' == [id]
  {
    assert Reclaimable(db.tasks, map[]) == {id} && OutOfAttempts(db.tasks, map[]) == {};
    assert Unlisted(db.tasks, []) == {};
    assert db'.tasks == Requeue(db, id, db.tasks[id].attempt).0.tasks;
    NoObituaries(db'.log[|db.log|..], db.tasks);
    assert db'.log == db'.log[..|db.log|] + db'.log[|db.log|..];
    OnePushed(queue', id);
  }

  lemma NoObituaries(events: seq<Event>, tasks: map<TaskId, Task>)
    requires Obituaries(events, tasks, {})
    ensures events == []
  {
    assert |Mourned(events)| == |multiset(Mourned(events))|;
  }

  lemma OnePushed(queue: seq<TaskId>, id: TaskId)
    requires Pushed([], queue, {id} + {})
    ensures queue == [id]
  {
    assert queue[..|queue| - 0] == queue;
    assert {id} + {} == {id};
    assert |queue| == |multiset(queue)| == 1;
    assert queue[0] in multiset(queue);
  }

  // ---------- a live stream with a gap ----------

  lemma OrphanTaken(self: WorkerId, cap: int, sh: Shared, id: TaskId) returns (acts: seq<Action>, sh': Shared, t: Task)
    requires Orphan(sh.db, id) && sh.queue == [] && sh.leases == map[] && cap >= 1
    ensures Does(self, cap, sh, Idle, acts, sh', Attempting(t, Token(""), None, Starting))
    ensures sh'.db.log == sh.db.log && sh'.published == sh.published
    ensures t.id == id && t.attempt == sh.db.tasks[id].attempt + 1
    ensures sh'.db.tasks.Keys == {id} && sh'.db.tasks[id] == t && sh'.queue == []
    ensures t.status == Running && t.maxAttempts == sh.db.tasks[id].maxAttempts
  {
    var pass, sh1, inRedis := OrphanRequeued(self, cap, sh, id);
    AloneDoes(self, cap, sh, Idle, pass, sh1, Repushing(inRedis, []));
    var take := TakesNext(self, cap, sh1, Token(""));
    sh', t := Taken(self, sh1, Token("")), Claim(sh1.db, id, self).1.value;
    var me := Attempting(t, Token(""), None, Starting);
    DoesFirst(self, cap, sh1, Repushing(inRedis, []), Advance, take, sh', me);
    DoesJoin(self, cap, sh, Idle, pass, sh1, Repushing(inRedis, []), [Advance] + take, sh', me);
    acts := pass + ([Advance] + take);
  }

  /** The same worker repairs, claims the orphan again, and logs and publishes its start. */
  lemma SecondAttempt(self: WorkerId, cap: int, sh: Shared, id: TaskId)
    returns (acts: seq<Action>, sh': Shared, me': Worker)
    requires Orphan(sh.db, id) && sh.queue == [] && sh.leases == map[] && cap >= 1
    ensures Does(self, cap, sh, Idle, acts, sh', me')
    ensures |sh'.db.log| == |sh.db.log| + 1 && sh.db.log <= sh'.db.log && id in sh'.db.tasks
    ensures sh'.db.log[|sh.db.log|].taskId == id && sh'.db.log[|sh.db.log|].attempt == sh.db.tasks[id].attempt + 1
    ensures sh'.published == sh.published + [sh'.db.log[|sh.db.log|]]
  {
    var take, sh1, t := OrphanTaken(self, cap, sh, id);
    var work;
    work, sh', me' := StartsToWork(self, cap, sh1, t, Token(""));
    DoesJoin(self, cap, sh, Idle, take, sh1, Attempting(t, Token(""), None, Starting), work, sh', me');
    acts := take + work;
  }

  /** All leases expire. */
  lemma Expires(cfg: Config, s: State) returns (s': State)
    requires Reached(cfg, s, true)
    ensures Reached(cfg, s', true) && s' == s.(sh := s.sh.(leases := map[]))
  {
    ReachStep(cfg, s, true, RedisLoss(s.sh.queue, {}));
    s' := Next(cfg, s, RedisLoss(s.sh.queue, {}));
  }

  lemma StartsAndDies(self: WorkerId, cap: int, sh: Shared, t: Task, token: Token) returns (acts: seq<Action>)
    ensures Does(self, cap, sh, Attempting(t, token, None, Starting), acts,
                 sh.(db := Append(sh.db, t.id, t.attempt, JobStarted, StartedBody(t)).0), Idle)
  {
    var me := Attempting(t, token, None, Starting);
    var (sh1, me1) := WorkerMove(self, cap, sh, me, Advance);
    DoesOne(self, cap, sh1, me1, Crash);
    DoesFirst(self, cap, sh, me, Advance, [Crash], sh1, Idle);
    acts := [Advance] + [Crash];
  }

  /** The first attempt: `job.started` is logged, the worker dies before publishing it,
      and the lease expires. */
  lemma FirstAttempt(cfg: Config, w: WorkerId) returns (s: State, id: TaskId)
    requires cfg.cap >= 1 && w in cfg.workers
    ensures Reached(cfg, s, true) && w in s.workers && s.workers[w] == Idle
    ensures Orphan(s.sh.db, id) && s.sh.queue == [] && s.sh.leases == map[]
    ensures |s.sh.db.log| == 1 && s.sh.db.log[0].taskId == id && s.sh.published == []
    ensures s.sh.db.log[0].attempt == s.sh.db.tasks[id].attempt == 1
    ensures s.sh.db.tasks[id].maxAttempts == MAX_ATTEMPTS
  {
    var s0;
    s0, id := StartOne(cfg, w, Token(""));
    var t := s0.sh.db.tasks[id];
    var acts := StartsAndDies(w, cfg.cap, s0.sh, t, Token(""));
    var sh1 := s0.sh.(db := Append(s0.sh.db, t.id, t.attempt, JobStarted, StartedBody(t)).0);
    ReachDoes(cfg, s0, true, w, acts, sh1, Idle);
    s := Expires(cfg, Moved(s0, w, sh1, Idle));
  }

  /** The task exists and has two events, of which only the second was published. */
  predicate SecondOnly(sh: Shared, id: TaskId) {
    && id in sh.db.tasks && |sh.db.log| == 2 && sh.db.log[0].taskId == id && sh.db.log[1].taskId == id
    && sh.published == [sh.db.log[1]]
  }

  /** A worker logs `job.started` and dies before publishing it; the lease expires; the
      task is started again, and now the event is published. The first event never is. */
  lemma GapHappens(cfg: Config) returns (s: State, id: TaskId)
    requires cfg.cap >= 1 && cfg.workers != {}
    ensures Reached(cfg, s, true) && !InOrder(s.sh, id)
    ensures SecondOnly(s.sh, id)
  {
    var w :| w in cfg.workers;
    var s0;
    s0, id := FirstAttempt(cfg, w);
    var acts, sh', me' := SecondAttempt(w, cfg.cap, s0.sh, id);
    ReachDoes(cfg, s0, true, w, acts, sh', me');
    s := Moved(s0, w, sh', me');
    OutOfOrder(sh', id);
  }

  lemma OutOfOrder(sh: Shared, t: TaskId)
    requires |sh.db.log| == 2 && sh.db.log[0].taskId == t && sh.db.log[1].taskId == t
    requires sh.db.log[0] != sh.db.log[1]
    requires sh.published == [sh.db.log[1]]
    ensures !InOrder(sh, t)
  {
    var e := sh.db.log[1];
    assert sh.published[..0] == [] && sh.db.log[..1][..0] == [];
    assert OfTask(sh.published, t) == [] + [e];
    assert OfTask(sh.db.log[..1], t) == [] + [sh.db.log[0]];
    assert OfTask(sh.db.log, t) == [] + [sh.db.log[0]] + [e];
    assert OfTask(sh.db.log, t)[0] != OfTask(sh.published, t)[0];
  }

  lemma EarlyIsZero(sh: Shared, id: TaskId, v: View)
    requires SecondOnly(sh, id) && Early(sh, id, 0, v)
    ensures v == View(0, 0, 1)
  {
    ComesLater(sh.published[..v.subscribed], sh.published, 0, id);
    ComesLater(sh.db.log[..v.snapshot], sh.db.log, 0, id);
  }

  lemma FirstIsOwed(sh: Shared, id: TaskId)
    requires SecondOnly(sh, id) && Numbered(sh.db.log)
    ensures Owed(OfTask(sh.db.log, id), 0) != [] && Owed(OfTask(sh.db.log, id), 0)[0] == sh.db.log[0]
  {
    OfTaskNext(sh.db.log, 0, id);
    OfTaskNext(sh.db.log, 1, id);
    assert sh.db.log[..0] == [] && sh.db.log[..2] == sh.db.log;
    assert OfTask(sh.db.log, id) == [sh.db.log[0], sh.db.log[1]];
    OfTaskOrdered(sh.db.log, id);
    OwedFirst(OfTask(sh.db.log, id), 0);
  }

  /** A client of that task that connects right after the submission, asks for everything,
      and is cut after one message, receives the second event and never the first. */
  lemma StreamLoses(cfg: Config) returns (steps: seq<Step>, id: TaskId)
    requires cfg.cap >= 1 && cfg.workers != {}
    ensures IsRun(cfg, Init(cfg), steps) && Tame(cfg, Init(cfg), steps, true)
    ensures RealView(cfg, steps, id, View(0, 0, 1))
    ensures var sh := Run(cfg, Init(cfg), steps).sh;
            && SecondOnly(sh, id) && ViewOk(sh, View(0, 0, 1))
            && Delivered(sh, id, 0, View(0, 0, 1)) == [sh.db.log[1]]
            && Owed(OfTask(sh.db.log, id), 0) != [] && Owed(OfTask(sh.db.log, id), 0)[0] == sh.db.log[0]
            && !GapFreeView(sh, id, 0, View(0, 0, 1))
  {
    var s;
    s, id := GapHappens(cfg);
    steps :| TameRun(cfg, Init(cfg), steps, true, s);
    var v := EarlyView(cfg, steps, id, 0);
    EarlyIsZero(s.sh, id, v);
    InitHolds(cfg);
    RunKeeps(cfg, Init(cfg), steps);
    InvIsLogged(s);
    assert s.sh.published[..0] == [];
    SentAlone(s.sh, id, 0, 0, v);
    FirstIsOwed(s.sh, id);
    assert [s.sh.db.log[1]][0] != s.sh.db.log[0];
  }

  // ---------- a task that crashes every time ----------

  lemma PassBuries(db: Db, id: TaskId, db': Db, queue': seq<TaskId>, stats: Stats)
    requires db.tasks.Keys == {id} && db.tasks[id].status == Running
    requires db.tasks[id].attempt >= db.tasks[id].maxAttempts
    requires Pass(db, [], map[], db', queue', stats)
    ensures id in db'.tasks && db'.tasks[id].failureReason == Some(RetriesExhausted)
  {
  }

  /** With the two attempts that the API grants: the worker dies in each, its lease expires,
      and the repair pass after the second one fails the task. */
  lemma RetriesRunOut(cfg: Config) returns (s: State, id: TaskId)
    requires cfg.cap >= 1 && cfg.workers != {}
    ensures Reached(cfg, s, true) && id in s.sh.db.tasks
    ensures s.sh.db.tasks[id].failureReason == Some(RetriesExhausted) && s.sh.db.tasks[id].maxAttempts == MAX_ATTEMPTS
  {
    var w :| w in cfg.workers;
    var s0;
    s0, id := FirstAttempt(cfg, w);
    var acts, sh1, t := OrphanTaken(w, cfg.cap, s0.sh, id);
    ReachDoes(cfg, s0, true, w, acts, sh1, Attempting(t, Token(""), None, Starting));
    var s1 := Moved(s0, w, sh1, Attempting(t, Token(""), None, Starting));
    ReachMove(cfg, s1, true, w, Crash);
    var s2 := Expires(cfg, Moved(s1, w, sh1, Idle));
    var pass, sh', inRedis := PassCanBeMade(w, cfg.cap, s2.sh);
    var over := Repushing(inRedis, []);
    var stats := UndisturbedPass(w, cfg.cap, s2.sh, pass, sh', over);
    PassBuries(s2.sh.db, id, sh'.db, sh'.queue, stats);
    AloneDoes(w, cfg.cap, s2.sh, Idle, pass, sh', over);
    ReachDoes(cfg, s2, true, w, pass, sh', over);
    s := Moved(s2, w, sh', over);
  }

  // ---------- an event after the terminal one ----------

  lemma StartsToWork(self: WorkerId, cap: int, sh: Shared, t: Task, token: Token)
    returns (acts: seq<Action>, sh': Shared, me': Worker)
    ensures Does(self, cap, sh, Attempting(t, token, None, Starting), acts, sh', me')
    ensures me' == Attempting(t, token, None, Working)
    ensures sh'.db.tasks == sh.db.tasks && sh'.queue == sh.queue && sh'.leases == sh.leases
    ensures var e := NextEvent(sh.db.log, t.id, t.attempt, JobStarted, StartedBody(t));
            sh'.db.log == sh.db.log + [e] && sh'.published == sh.published + [e]
  {
    var me := Attempting(t, token, None, Starting);
    var (sh1, me1) := WorkerMove(self, cap, sh, me, Advance);
    DoesOne(self, cap, sh1, me1, Advance);
    sh', me' := WorkerMove(self, cap, sh1, me1, Advance).0, Attempting(t, token, None, Working);
    DoesFirst(self, cap, sh, me, Advance, [Advance], sh', me');
    acts := [Advance] + [Advance];
  }

  /** Worker `w` works on its attempt while the lease expires and the repair pass of `v`
      puts the task back into the queue. */
  lemma StaleWorker(cfg: Config, w: WorkerId, v: WorkerId) returns (s: State, id: TaskId)
    requires cfg.cap >= 1 && w in cfg.workers && v in cfg.workers && v != w
    ensures Reached(cfg, s, true) && (forall h :: h in s.handlers ==> h < 1)
    ensures w in s.workers && s.workers[w].Attempting? && s.workers[w].stage == Working && s.workers[w].task.id == id
    ensures id in s.sh.db.tasks && s.sh.db.tasks[id].status == Queued
  {
    var s0;
    s0, id := StartOne(cfg, w, Token(""));
    var acts, sh1, me1 := StartsToWork(w, cfg.cap, s0.sh, s0.sh.db.tasks[id], Token(""));
    ReachDoes(cfg, s0, true, w, acts, sh1, me1);
    var s1 := Expires(cfg, Moved(s0, w, sh1, me1));
    var pass, sh2, inRedis := OrphanRequeued(v, cfg.cap, s1.sh, id);
    AloneDoes(v, cfg.cap, s1.sh, Idle, pass, sh2, Repushing(inRedis, []));
    ReachDoes(cfg, s1, true, v, pass, sh2, Repushing(inRedis, []));
    s := Moved(s1, v, sh2, Repushing(inRedis, []));
  }

  /** The API cancels a queued task outright. */
  lemma Cancels(cfg: Config, s: State, id: TaskId) returns (s': State)
    requires Reached(cfg, s, true) && (forall h :: h in s.handlers ==> h < 1)
    requires id in s.sh.db.tasks && s.sh.db.tasks[id].status == Queued
    ensures Reached(cfg, s', true) && s'.workers == s.workers
    ensures s'.sh == s.sh.(db := CancelQueued(s.sh.db, id).0)
  {
    ReachStep(cfg, s, true, AskCancel(1, id));
    var s1 := Next(cfg, s, AskCancel(1, id));
    ReachStep(cfg, s1, true, HandlerStep(1));
    s' := Next(cfg, s1, HandlerStep(1));
  }

  /** The stale worker then writes behind the terminal event. */
  lemma EventAfterTheEnd(cfg: Config, w: WorkerId, v: WorkerId) returns (s: State, i: nat, j: nat)
    requires cfg.cap >= 1 && w in cfg.workers && v in cfg.workers && v != w
    ensures Reached(cfg, s, true) && i < j < |s.sh.db.log|
    ensures Closes(s.sh.db.log[i]) && !Closes(s.sh.db.log[j]) && s.sh.db.log[i].taskId == s.sh.db.log[j].taskId
  {
    var s0, id := StaleWorker(cfg, w, v);
    var s1 := Cancels(cfg, s0, id);
    ReachMove(cfg, s1, true, w, Emit(LlmMessage, ""));
    var (sh', me') := WorkerMove(w, cfg.cap, s1.sh, s1.workers[w], Emit(LlmMessage, ""));
    s := Moved(s1, w, sh', me');
    i, j := |s0.sh.db.log|, |s0.sh.db.log| + 1;
  }

  // ---------- a rival's lease deleted ----------

  lemma LostPass(db: Db, id: TaskId, db': Db, queue': seq<TaskId>, stats: Stats)
    requires db.tasks.Keys == {id} && db.tasks[id].status == Queued
    requires Pass(db, [], map[], db', queue', stats)
    ensures db' == db && queue' == [id]
  {
    assert Reclaimable(db.tasks, map[]) == {} && OutOfAttempts(db.tasks, map[]) == {};
    assert Unlisted(db.tasks, []) == {id};
    NothingToMend(db, map[], db');
    assert {} + {id} == {id} + {};
    OnePushed(queue', id);
  }

  /** A queued task that a worker has just dequeued is pushed again by a pass, and the
      worker that made the pass dequeues it as well. */
  lemma DequeuesAgain(self: WorkerId, cap: int, sh: Shared, id: TaskId) returns (acts: seq<Action>)
    requires Keyed(sh.db.tasks) && sh.db.tasks.Keys == {id} && sh.db.tasks[id].status == Queued
    requires sh.queue == [] && sh.leases == map[] && cap >= 1
    ensures Does(self, cap, sh, Idle, acts, sh, Holding(id))
  {
    var pass, sh1, inRedis := PassCanBeMade(self, cap, sh);
    var over := Repushing(inRedis, []);
    var stats := UndisturbedPass(self, cap, sh, pass, sh1, over);
    LostPass(sh.db, id, sh1.db, sh1.queue, stats);
    NothingPublished(sh.published, sh.db.log, sh1.published);
    AloneDoes(self, cap, sh, Idle, pass, sh1, over);
    DoesOne(self, cap, sh1, Through, Advance);
    assert [id][..0] == [];
    DoesFirst(self, cap, sh1, over, Advance, [Advance], sh, Holding(id));
    DoesJoin(self, cap, sh, Idle, pass, sh1, over, [Advance] + [Advance], sh, Holding(id));
    acts := pass + ([Advance] + [Advance]);
  }

  lemma Dequeues(cfg: Config, s: State, w: WorkerId, id: TaskId) returns (s': State)
    requires Reached(cfg, s, true) && w in s.workers && s.workers[w] == Through && s.sh.queue == [id]
    ensures Reached(cfg, s', true) && s' == Moved(s, w, s.sh.(queue := []), Holding(id))
  {
    ReachMove(cfg, s, true, w, Advance);
    assert [id][..0] == [];
    s' := Moved(s, w, s.sh.(queue := []), Holding(id));
  }

  /** Worker `w` is past the cap check and the only task waits in the queue. */
  lemma OneWaits(cfg: Config, w: WorkerId) returns (s: State, id: TaskId)
    requires cfg.cap >= 1 && w in cfg.workers
    ensures Reached(cfg, s, true) && Keyed(s.sh.db.tasks) && (forall h :: h in s.handlers ==> h < 1)
    ensures s.workers.Keys == cfg.workers && s.workers[w] == Through
    ensures forall v :: v in cfg.workers && v != w ==> s.workers[v] == Idle
    ensures s.sh.queue == [id] && s.sh.leases == map[]
    ensures s.sh.db.tasks.Keys == {id} && s.sh.db.tasks[id].status == Queued
  {
    var s0 := StockOf(cfg, 1);
    id := OnlyTask(s0.sh);
    s := OneReady(cfg, s0, 1, 0, {}, w);
    ReachLossy(cfg, s);
  }

  /** A worker has dequeued the only task. */
  lemma OneHolds(cfg: Config, w: WorkerId) returns (s: State, id: TaskId)
    requires cfg.cap >= 1 && w in cfg.workers
    ensures Reached(cfg, s, true) && Keyed(s.sh.db.tasks) && (forall h :: h in s.handlers ==> h < 1)
    ensures s.workers.Keys == cfg.workers && s.workers[w] == Holding(id)
    ensures forall v :: v in cfg.workers && v != w ==> s.workers[v] == Idle
    ensures s.sh.queue == [] && s.sh.leases == map[]
    ensures s.sh.db.tasks.Keys == {id} && s.sh.db.tasks[id].status == Queued
  {
    var s0;
    s0, id := OneWaits(cfg, w);
    s := Dequeues(cfg, s0, w, id);
  }

  /** Two workers have dequeued the same task, which is then cancelled. */
  lemma BothHold(cfg: Config, w: WorkerId, v: WorkerId) returns (s: State, id: TaskId)
    requires cfg.cap >= 1 && w in cfg.workers && v in cfg.workers && v != w
    ensures Reached(cfg, s, true) && s.sh.queue == [] && s.sh.leases == map[]
    ensures w in s.workers && v in s.workers && s.workers[w] == Holding(id) && s.workers[v] == Holding(id)
    ensures id in s.sh.db.tasks && IsTerminal(s.sh.db.tasks[id].status)
  {
    var s0;
    s0, id := OneHolds(cfg, w);
    var acts := DequeuesAgain(v, cfg.cap, s0.sh, id);
    ReachDoes(cfg, s0, true, v, acts, s0.sh, Holding(id));
    s := Cancels(cfg, Moved(s0, v, s0.sh, Holding(id)), id);
  }

  /** The claim of a task that is over fails; the worker reads its own token back. */
  lemma GoesToDelete(self: WorkerId, cap: int, sh: Shared, id: TaskId, token: Token) returns (acts: seq<Action>)
    requires id in sh.db.tasks && IsTerminal(sh.db.tasks[id].status) && id !in sh.leases
    ensures Does(self, cap, sh, Holding(id), acts, sh.(leases := sh.leases[id := token]), Deleting(id, token))
  {
    var sh1 := sh.(leases := sh.leases[id := token]);
    DoesOne(self, cap, sh1, Releasing(id, token), Advance);
    DoesFirst(self, cap, sh1, Leased(id, token), Advance, [Advance], sh1, Deleting(id, token));
    DoesFirst(self, cap, sh, Holding(id), Acquire(token), [Advance] + [Advance], sh1, Deleting(id, token));
    acts := [Acquire(token)] + ([Advance] + [Advance]);
  }

  /** A worker whose claim failed has read its own token back, and then its lease expires. */
  lemma AboutToDelete(cfg: Config, w: WorkerId, v: WorkerId, mine: Token) returns (s: State, id: TaskId)
    requires cfg.cap >= 1 && w in cfg.workers && v in cfg.workers && v != w
    ensures Reached(cfg, s, true) && w in s.workers && v in s.workers
    ensures s.workers[w] == Deleting(id, mine) && s.workers[v] == Holding(id) && s.sh.leases == map[]
  {
    var s0;
    s0, id := BothHold(cfg, w, v);
    var acts := GoesToDelete(w, cfg.cap, s0.sh, id, mine);
    var sh1 := s0.sh.(leases := s0.sh.leases[id := mine]);
    ReachDoes(cfg, s0, true, w, acts, sh1, Deleting(id, mine));
    s := Expires(cfg, Moved(s0, w, sh1, Deleting(id, mine)));
  }

  lemma DeleteRemoves(self: WorkerId, cap: int, sh: Shared, id: TaskId, token: Token, mine: Token)
    requires sh.leases == map[id := token]
    ensures WorkerMove(self, cap, sh, Deleting(id, mine), Advance).0.leases == map[]
  {
  }

  /** The other worker takes the lease, and the first one's DELETE removes it. */
  lemma RivalLeaseDeleted(cfg: Config, w: WorkerId, v: WorkerId, mine: Token, theirs: Token)
    returns (s: State, id: TaskId)
    requires cfg.cap >= 1 && w in cfg.workers && v in cfg.workers && v != w && mine != theirs
    ensures Reached(cfg, s, true) && w in s.workers && v in s.workers
    ensures s.workers[w] == Deleting(id, mine) && s.workers[v] == Leased(id, theirs) && s.sh.leases == map[id := theirs]
    ensures WorkerMove(w, cfg.cap, s.sh, s.workers[w], Advance).0.leases == map[]
  {
    var s0;
    s0, id := AboutToDelete(cfg, w, v, mine);
    s := Acquires(cfg, s0, v, id, theirs);
    DeleteRemoves(w, cfg.cap, s.sh, id, theirs, mine);
  }

  lemma Acquires(cfg: Config, s: State, v: WorkerId, id: TaskId, token: Token) returns (s': State)
    requires Reached(cfg, s, true) && v in s.workers && s.workers[v] == Holding(id) && s.sh.leases == map[]
    ensures Reached(cfg, s', true) && s' == Moved(s, v, s.sh.(leases := map[id := token]), Leased(id, token))
  {
    ReachMove(cfg, s, true, v, Acquire(token));
    s' := Moved(s, v, s.sh.(leases := s.sh.leases[id := token]), Leased(id, token));
  }
}

/** Building blocks for runs that show what can happen: tasks are submitted and pushed by
    the API, and workers poll one at a time. */
module Stocked {
  import opened Models
  import opened Database
  import opened Reconcile
  import opened System
  import opened Blocks
  import opened Undisturbed

  const MAX_ATTEMPTS := 2

  // ---------- stretches of one worker ----------

  /** Where nothing is out of place and a slot is free, an idle worker passes the cap
      check without changing anything. */
  lemma GetsThrough(self: WorkerId, cap: int, sh: Shared) returns (acts: seq<Action>)
    requires Keyed(sh.db.tasks) && Quiet(sh.db, sh.queue, sh.leases) && |sh.leases| < cap
    ensures Does(self, cap, sh, Idle, acts, sh, Through)
  {
    var sh', inRedis;
    acts, sh', inRedis := PassCanBeMade(self, cap, sh);
    var over := Repushing(inRedis, []);
    var stats := UndisturbedPass(self, cap, sh, acts, sh', over);
    QuietPass(sh.db, sh.queue, sh.leases, sh'.db, sh'.queue, stats);
    assert sh' == sh by { NothingPublished(sh.published, sh.db.log, sh'.published); }
    AloneDoes(self, cap, sh, Idle, acts, sh, over);
    DoesOne(self, cap, sh, over, Advance);
    DoesJoin(self, cap, sh, Idle, acts, sh, over, [Advance], sh, Through);
    acts := acts + [Advance];
  }

  lemma NothingPublished(published: seq<Event>, log: seq<Event>, published': seq<Event>)
    requires published' == published + log[|log|..]
    ensures published' == published
  {
  }

  lemma DoesOne(self: WorkerId, cap: int, sh: Shared, me: Worker, a: Action)
    requires WorkerCan(sh, me, a)
    ensures var (sh', me') := WorkerMove(self, cap, sh, me, a); Does(self, cap, sh, me, [a], sh', me')
  {
    assert [a][1..] == [];
  }

  /** After a pop, a lease and a claim. */
  function Taken(self: WorkerId, sh: Shared, token: Token): Shared
    requires sh.queue != []
  {
    var id := sh.queue[|sh.queue| - 1];
    Shared(Claim(sh.db, id, self).0, sh.queue[..|sh.queue| - 1], sh.leases[id := token], sh.published)
  }

  /** A worker past the cap check takes the oldest entry, whatever the number of leases is
      by now. */
  lemma TakesNext(self: WorkerId, cap: int, sh: Shared, token: Token) returns (acts: seq<Action>)
    requires sh.queue != [] && sh.queue[|sh.queue| - 1] !in sh.leases
    requires Claim(sh.db, sh.queue[|sh.queue| - 1], self).1.Some?
    ensures Does(self, cap, sh, Through, acts, Taken(self, sh, token),
                 Attempting(Claim(sh.db, sh.queue[|sh.queue| - 1], self).1.value, token, None, Starting))
  {
    var id := sh.queue[|sh.queue| - 1];
    var end := Attempting(Claim(sh.db, id, self).1.value, token, None, Starting);
    var sh1 := sh.(queue := sh.queue[..|sh.queue| - 1]);
    var sh2 := sh1.(leases := sh.leases[id := token]);
    DoesOne(self, cap, sh2, Leased(id, token), Advance);
    DoesFirst(self, cap, sh1, Holding(id), Acquire(token), [Advance], Taken(self, sh, token), end);
    acts := [Acquire(token)] + [Advance];
    DoesFirst(self, cap, sh, Through, Advance, acts, Taken(self, sh, token), end);
    acts := [Advance] + acts;
  }

  /** The same, and dies. */
  lemma TakesAndDies(self: WorkerId, cap: int, sh: Shared, token: Token) returns (acts: seq<Action>)
    requires sh.queue != [] && sh.queue[|sh.queue| - 1] !in sh.leases
    requires Claim(sh.db, sh.queue[|sh.queue| - 1], self).1.Some?
    ensures Does(self, cap, sh, Through, acts, Taken(self, sh, token), Idle)
  {
    acts := TakesNext(self, cap, sh, token);
    var end := Attempting(Claim(sh.db, sh.queue[|sh.queue| - 1], self).1.value, token, None, Starting);
    DoesOne(self, cap, Taken(self, sh, token), end, Crash);
    DoesJoin(self, cap, sh, Through, acts, Taken(self, sh, token), end, [Crash], Taken(self, sh, token), Idle);
    acts := acts + [Crash];
  }

  // ---------- a stock of tasks ----------

  /** `n` tasks were submitted; `j` of them are running under a lease and the others wait
      in the queue, each once; the workers of `ready` are past the cap check, the others idle. */
  ghost predicate Stock(sh: Shared, n: nat, j: nat) {
    && Small(sh.db, n) && sh.db.log == [] && sh.published == []
    && j <= n && |sh.leases| == j && |sh.queue| == n - j
    && Busy(sh.db, sh.leases) && InLine(sh.db, sh.queue)
  }

  predicate Small(db: Db, n: nat) {
    Keyed(db.tasks) && forall id :: id in db.tasks ==> |id.hex| < n
  }

  /** The leases are those of the running tasks. */
  predicate Busy(db: Db, leases: map<TaskId, Token>) {
    && (forall id :: id in leases ==> id in db.tasks && db.tasks[id].status == Running)
    && (forall id :: id in db.tasks && db.tasks[id].status == Running ==> id in leases)
  }

  /** The queue holds exactly the queued tasks, all of them new, each once. */
  predicate InLine(db: Db, queue: seq<TaskId>) {
    && (forall i :: 0 <= i < |queue| ==> Waits(db, queue[i]))
    && (forall i, k :: 0 <= i < k < |queue| ==> queue[i] != queue[k])
    && (forall id :: id in db.tasks && db.tasks[id].status == Queued ==> id in queue)
  }

  predicate Waits(db: Db, id: TaskId) {
    id in db.tasks && db.tasks[id].status == Queued && db.tasks[id].attempt == 0
    && db.tasks[id].maxAttempts == MAX_ATTEMPTS
  }

  ghost predicate Crew(cfg: Config, s: State, n: nat, ready: set<WorkerId>) {
    && s.workers == (map w | w in cfg.workers :: if w in ready then Through else Idle)
    && (forall h :: h in s.handlers ==> h < n)
  }

  function Id(i: nat): TaskId {
    TaskId(seq(i, _ => '0'))
  }

  lemma LinePush(db: Db, queue: seq<TaskId>, id: TaskId, prompt: string)
    requires InLine(db, queue) && id !in db.tasks
    ensures InLine(db.(tasks := db.tasks[id := NewTask(id, prompt, None, MAX_ATTEMPTS)]), [id] + queue)
  {
    var db', queue' := db.(tasks := db.tasks[id := NewTask(id, prompt, None, MAX_ATTEMPTS)]), [id] + queue;
    forall i | 0 <= i < |queue'| ensures Waits(db', queue'[i]) && (i > 0 ==> queue'[i] != id) {
      if i > 0 { assert queue'[i] == queue[i - 1] && Waits(db, queue[i - 1]); }
    }
    assert forall i, k :: 0 < i < k < |queue'| ==> queue'[i] == queue[i - 1] && queue'[k] == queue[k - 1];
  }

  lemma LinePop(db: Db, queue: seq<TaskId>, self: WorkerId)
    requires InLine(db, queue) && queue != []
    ensures Claim(db, queue[|queue| - 1], self).1.Some?
    ensures InLine(Claim(db, queue[|queue| - 1], self).0, queue[..|queue| - 1])
  {
    var id, queue' := queue[|queue| - 1], queue[..|queue| - 1];
    var db' := Claim(db, id, self).0;
    assert Waits(db, id);
    forall i | 0 <= i < |queue'| ensures Waits(db', queue'[i]) {
      assert Waits(db, queue[i]);
    }
    forall t | t in db'.tasks && db'.tasks[t].status == Queued ensures t in queue' {
      var i :| 0 <= i < |queue| && queue[i] == t;
      assert queue'[i] == t;
    }
  }

  lemma PushedStock(sh: Shared, n: nat, prompt: string)
    requires Stock(sh, n, 0)
    ensures var (db, r) := Create(sh.db, Id(n), prompt, None, MAX_ATTEMPTS);
            r.Created? && Stock(sh.(db := db, queue := [Id(n)] + sh.queue), n + 1, 0)
  {
    assert |Id(n).hex| == n;
    LinePush(sh.db, sh.queue, Id(n), prompt);
  }

  /** One more task through the API. */
  lemma Stocks(cfg: Config, s: State, n: nat) returns (s': State)
    requires Reached(cfg, s, false) && Stock(s.sh, n, 0) && Crew(cfg, s, n, {})
    ensures Reached(cfg, s', false) && Stock(s'.sh, n + 1, 0) && Crew(cfg, s', n + 1, {})
  {
    PushedStock(s.sh, n, "");
    var step := Submit(n, Id(n), "", None, MAX_ATTEMPTS);
    ReachStep(cfg, s, false, step);
    var s1 := Next(cfg, s, step);
    ReachStep(cfg, s1, false, HandlerStep(n));
    s' := Next(cfg, s1, HandlerStep(n));
  }

  lemma {:induction false} StockOf(cfg: Config, n: nat) returns (s: State)
    ensures Reached(cfg, s, false) && Stock(s.sh, n, 0) && Crew(cfg, s, n, {})
  {
    if n == 0 {
      s := Init(cfg);
      ReachInit(cfg, false);
    } else {
      s := StockOf(cfg, n - 1);
      s := Stocks(cfg, s, n - 1);
    }
  }

  /** One more worker passes the cap check. */
  lemma OneReady(cfg: Config, s: State, n: nat, j: nat, ready: set<WorkerId>, w: WorkerId) returns (s': State)
    requires Reached(cfg, s, false) && Stock(s.sh, n, j) && Crew(cfg, s, n, ready)
    requires w in cfg.workers && w !in ready && j < cfg.cap
    ensures Reached(cfg, s', false) && s'.sh == s.sh && Crew(cfg, s', n, ready + {w})
  {
    var acts := GetsThrough(w, cfg.cap, s.sh);
    ReachDoes(cfg, s, false, w, acts, s.sh, Through);
    CrewMoves(cfg, s, n, ready, w, s.sh);
    s' := Moved(s, w, s.sh, Through);
  }

  lemma BusyTake(db: Db, leases: map<TaskId, Token>, n: nat, id: TaskId, self: WorkerId, token: Token)
    requires Busy(db, leases) && Small(db, n) && Waits(db, id)
    ensures id !in leases && Claim(db, id, self).1.Some?
    ensures Busy(Claim(db, id, self).0, leases[id := token]) && Small(Claim(db, id, self).0, n)
    ensures Claim(db, id, self).0.log == db.log && |leases[id := token]| == |leases| + 1
  {
  }

  lemma TakenStock(sh: Shared, n: nat, j: nat, self: WorkerId, token: Token)
    requires Stock(sh, n, j) && j < n
    ensures sh.queue[|sh.queue| - 1] !in sh.leases && Claim(sh.db, sh.queue[|sh.queue| - 1], self).1.Some?
    ensures Stock(Taken(self, sh, token), n, j + 1)
  {
    var id := sh.queue[|sh.queue| - 1];
    assert Waits(sh.db, id);
    LinePop(sh.db, sh.queue, self);
    BusyTake(sh.db, sh.leases, n, id, self, token);
  }

  lemma CrewMoves(cfg: Config, s: State, n: nat, ready: set<WorkerId>, w: WorkerId, sh': Shared)
    requires Crew(cfg, s, n, ready) && w in cfg.workers
    ensures Crew(cfg, Moved(s, w, sh', Idle), n, ready - {w})
    ensures Crew(cfg, Moved(s, w, sh', Through), n, ready + {w})
  {
  }

  /** One of the ready workers takes a task and dies; its lease stays. */
  lemma OneTakes(cfg: Config, s: State, n: nat, j: nat, ready: set<WorkerId>, w: WorkerId) returns (s': State)
    requires Reached(cfg, s, false) && Stock(s.sh, n, j) && Crew(cfg, s, n, ready)
    requires w in cfg.workers && w in ready && j < n
    ensures Reached(cfg, s', false) && Stock(s'.sh, n, j + 1) && Crew(cfg, s', n, ready - {w})
  {
    TakenStock(s.sh, n, j, w, Token(""));
    var acts := TakesAndDies(w, cfg.cap, s.sh, Token(""));
    ReachDoes(cfg, s, false, w, acts, Taken(w, s.sh, Token("")), Idle);
    CrewMoves(cfg, s, n, ready, w, Taken(w, s.sh, Token("")));
    s' := Moved(s, w, Taken(w, s.sh, Token("")), Idle);
  }

  // ---------- one task, started ----------

  lemma ReachLossy(cfg: Config, s: State)
    requires Reached(cfg, s, false)
    ensures Reached(cfg, s, true)
  {
    var steps :| TameRun(cfg, Init(cfg), steps, false, s);
    TameWeakens(cfg, Init(cfg), steps, true);
    assert TameRun(cfg, Init(cfg), steps, true, s);
  }

  /** The only task is `id`, claimed for the first time under its lease; nothing has been
      logged, published or left in the queue. */
  predicate OneRuns(sh: Shared, id: TaskId, token: Token) {
    && sh.db.tasks.Keys == {id} && sh.db.log == [] && sh.published == []
    && sh.queue == [] && sh.leases == map[id := token]
    && sh.db.tasks[id].id == id && sh.db.tasks[id].status == Running
    && sh.db.tasks[id].attempt == 1 && sh.db.tasks[id].maxAttempts == MAX_ATTEMPTS
  }

  /** Worker `w` has just claimed it; the others are idle. */
  ghost predicate JustStarted(cfg: Config, s: State, w: WorkerId, id: TaskId, token: Token) {
    && OneRuns(s.sh, id, token)
    && s.workers.Keys == cfg.workers && w in cfg.workers
    && s.workers[w] == Attempting(s.sh.db.tasks[id], token, None, Starting)
    && (forall v :: v in cfg.workers && v != w ==> s.workers[v] == Idle)
    && (forall h :: h in s.handlers ==> h < 1)
  }

  lemma OnlyTask(sh: Shared) returns (id: TaskId)
    requires Stock(sh, 1, 0)
    ensures sh.queue == [id] && sh.db.tasks.Keys == {id} && Waits(sh.db, id) && sh.leases == map[]
    ensures sh.db.tasks[id].id == id
  {
    id := sh.queue[0];
    assert Waits(sh.db, id);
    forall t | t in sh.db.tasks ensures t == id {
      assert |t.hex| < 1 && |id.hex| < 1;
    }
  }

  lemma TakenOne(sh: Shared, id: TaskId, w: WorkerId, token: Token)
    requires sh.queue == [id] && sh.db.tasks.Keys == {id} && Waits(sh.db, id) && sh.leases == map[]
    requires sh.db.log == [] && sh.published == [] && sh.db.tasks[id].id == id
    ensures Claim(sh.db, id, w).1.Some? && OneRuns(Taken(w, sh, token), id, token)
    ensures Claim(sh.db, id, w).1.value == Taken(w, sh, token).db.tasks[id]
  {
  }

  lemma StartOne(cfg: Config, w: WorkerId, token: Token) returns (s: State, id: TaskId)
    requires w in cfg.workers && cfg.cap >= 1
    ensures Reached(cfg, s, true) && JustStarted(cfg, s, w, id, token)
  {
    var s0 := StockOf(cfg, 1);
    id := OnlyTask(s0.sh);
    TakenOne(s0.sh, id, w, token);
    var s1 := OneReady(cfg, s0, 1, 0, {}, w);
    var acts := TakesNext(w, cfg.cap, s1.sh, token);
    var me := Attempting(Claim(s1.sh.db, id, w).1.value, token, None, Starting);
    ReachDoes(cfg, s1, false, w, acts, Taken(w, s1.sh, token), me);
    s := Moved(s1, w, Taken(w, s1.sh, token), me);
    ReachLossy(cfg, s);
  }
}

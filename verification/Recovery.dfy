/** Crash recovery: if every worker that claims a task dies, repair passes and polls still
    bring every task to an end. */
module Recovery {
  import opened Models
  import opened Database
  import opened History
  import opened Reconcile
  import opened System
  import opened SystemProof
  import opened Guarantees
  import opened Blocks
  import opened Undisturbed

  // ---------- a poll ----------

  /** The worker has tried to claim. */
  predicate PastClaim(me: Worker) {
    me.Attempting? || me.EndPublish? || me.Releasing? || me.Deleting?
  }

  /** From here on the worker moves alone until it is back at the top of its loop. It may
      die at any moment after its claim, and in the attempt it may do anything. */
  ghost predicate PollRest(self: WorkerId, cap: int, sh: Shared, me: Worker, acts: seq<Action>, sh': Shared)
    decreases |acts|
  {
    && acts != [] && WorkerCan(sh, me, acts[0]) && (acts[0].Crash? ==> PastClaim(me))
    && var (sh1, me1) := WorkerMove(self, cap, sh, me, acts[0]);
       if me1.Idle? then |acts| == 1 && sh' == sh1 else PollRest(self, cap, sh1, me1, acts[1..], sh')
  }

  /** The repair pass up to `sh1`, then the rest; nobody else moves. */
  ghost predicate PollVia(self: WorkerId, cap: int, sh: Shared, pass: seq<Action>, sh1: Shared, me1: Worker,
                          rest: seq<Action>, sh': Shared)
  {
    Alone(self, cap, sh, Idle, pass, sh1, me1) && PassOver(me1) && PollRest(self, cap, sh1, me1, rest, sh')
  }

  /** One undisturbed `poll_once`. */
  ghost predicate Poll(self: WorkerId, cap: int, sh: Shared, sh': Shared) {
    exists pass, sh1, me1, rest :: PollVia(self, cap, sh, pass, sh1, me1, rest, sh')
  }

  lemma {:induction false} RestDoes(self: WorkerId, cap: int, sh: Shared, me: Worker, acts: seq<Action>, sh': Shared)
    requires PollRest(self, cap, sh, me, acts, sh')
    ensures Does(self, cap, sh, me, acts, sh', Idle)
    decreases |acts|
  {
    var (sh1, me1) := WorkerMove(self, cap, sh, me, acts[0]);
    if me1.Idle? {
      assert acts[1..] == [];
    } else {
      RestDoes(self, cap, sh1, me1, acts[1..], sh');
    }
  }

  lemma PollDoes(self: WorkerId, cap: int, sh: Shared, sh': Shared) returns (acts: seq<Action>)
    requires Poll(self, cap, sh, sh')
    ensures Does(self, cap, sh, Idle, acts, sh', Idle)
  {
    var pass, sh1, me1, rest :| PollVia(self, cap, sh, pass, sh1, me1, rest, sh');
    AloneDoes(self, cap, sh, Idle, pass, sh1, me1);
    RestDoes(self, cap, sh1, me1, rest, sh');
    DoesJoin(self, cap, sh, Idle, pass, sh1, me1, rest, sh', Idle);
    acts := pass + rest;
  }

  // ---------- the measure ----------

  predicate AllOver(db: Db) {
    forall t :: t in db.tasks ==> IsTerminal(db.tasks[t].status)
  }

  predicate AllClaimable(db: Db) {
    forall t :: t in db.tasks ==> Claimable(db.tasks[t]) && db.tasks[t].maxAttempts >= 1
  }

  /** The sum of the ranks of these tasks. */
  ghost function Total(tasks: map<TaskId, Task>, ids: set<TaskId>): int
    requires ids <= tasks.Keys
  {
    if ids == {} then 0 else
      var id :| id in ids;
      Rank(tasks[id]) + Total(tasks, ids - {id})
  }

  lemma {:induction false} TotalFalls(a: map<TaskId, Task>, b: map<TaskId, Task>, ids: set<TaskId>, lower: set<TaskId>)
    requires ids <= a.Keys && ids <= b.Keys && lower <= ids
    requires forall t :: t in ids ==> 0 <= Rank(b[t]) <= Rank(a[t]) - if t in lower then 1 else 0
    ensures 0 <= Total(b, ids) <= Total(a, ids) - |lower|
  {
    if ids != {} {
      var id :| id in ids && Total(a, ids) == Rank(a[id]) + Total(a, ids - {id})
                && Total(b, ids) == Rank(b[id]) + Total(b, ids - {id});
      TotalFalls(a, b, ids - {id}, lower - {id});
      assert lower - {id} == if id in lower then lower - {id} else lower;
    } else {
      assert lower == {};
    }
  }

  /** Twice the ranks, the queue entries, and the queued tasks that the queue has lost. */
  ghost function Work(sh: Shared): int {
    2 * Total(sh.db.tasks, sh.db.tasks.Keys) + |sh.queue| + |Unlisted(sh.db.tasks, sh.queue)|
  }

  // ---------- what a poll does to the measure ----------

  lemma MendLowersRank(t: Task)
    requires Claimable(t) && t.maxAttempts >= 1
    ensures var t' := Repaired(t, false);
            && Claimable(t') && t'.maxAttempts == t.maxAttempts && 0 <= Rank(t')
            && Rank(t') <= Rank(t) - (if t.status == Running then 1 else 0) && t'.status != Running
  {
  }

  lemma MendLowersTotal(db: Db, mended: Db)
    requires AllClaimable(db) && Mends(db, map[], mended)
    ensures mended.tasks.Keys == db.tasks.Keys && AllClaimable(mended)
    ensures 0 <= Total(mended.tasks, db.tasks.Keys) <= Total(db.tasks, db.tasks.Keys) - |Reclaimable(db.tasks, map[])|
    ensures AllOver(db) ==> AllOver(mended)
  {
    forall t | t in db.tasks
      ensures Claimable(mended.tasks[t]) && mended.tasks[t].maxAttempts >= 1
      ensures var drop := if t in Reclaimable(db.tasks, map[]) then 1 else 0;
              0 <= Rank(mended.tasks[t]) <= Rank(db.tasks[t]) - drop
      ensures db.tasks[t].status != Running ==> mended.tasks[t] == db.tasks[t]
    {
      MendLowersRank(db.tasks[t]);
    }
    TotalFalls(db.tasks, mended.tasks, db.tasks.Keys, Reclaimable(db.tasks, map[]));
  }

  lemma PushedLength(queue: seq<TaskId>, queue': seq<TaskId>, added: set<TaskId>)
    requires Pushed(queue, queue', added)
    ensures |queue'| == |queue| + |added|
  {
    var front := queue'[..|queue'| - |queue|];
    assert |front| == |multiset(front)| == |multiset(added)|;
  }

  /** Every push of a pass is paid for: by a rank that falls or by a lost task found. */
  lemma PassLowersWork(db: Db, queue: seq<TaskId>, db': Db, queue': seq<TaskId>, stats: Stats)
    requires AllClaimable(db) && Pass(db, queue, map[], db', queue', stats)
    ensures db'.tasks.Keys == db.tasks.Keys && AllClaimable(db') && (AllOver(db) ==> AllOver(db'))
    ensures Quiet(db', queue', map[])
    ensures 0 <= Total(db'.tasks, db.tasks.Keys)
    ensures 2 * Total(db'.tasks, db.tasks.Keys) + |queue'|
            <= 2 * Total(db.tasks, db.tasks.Keys) + |queue| + |Unlisted(db.tasks, queue)|
  {
    var found, lost := Reclaimable(db.tasks, map[]), Unlisted(db.tasks, queue);
    MendLowersTotal(db, db');
    PushedLength(queue, queue', found + lost);
    assert |found + lost| <= |found| + |lost|;
    PassRepairs(db, queue, map[], db', queue', stats);
  }

  /** The row is as before, or its attempt is over. */
  predicate Eased(t: Task, t': Task) {
    && t'.attempt == t.attempt && t'.maxAttempts == t.maxAttempts
    && (t'.status == t.status || (t.status == Running && IsTerminal(t'.status)))
  }

  ghost predicate Eases(sh: Shared, sh': Shared) {
    && sh'.queue == sh.queue && sh'.db.tasks.Keys == sh.db.tasks.Keys
    && forall t :: t in sh.db.tasks ==> Eased(sh.db.tasks[t], sh'.db.tasks[t])
  }

  /** An attempt that ends reports a terminal status. */
  predicate EndsProperly(me: Worker) {
    me.Attempting? ==>
      && (me.stage.UsageDue? ==> IsTerminal(me.stage.report.status))
      && (me.stage.FinishDue? ==> IsTerminal(me.stage.report.status))
  }

  lemma MoveEases(self: WorkerId, cap: int, sh: Shared, me: Worker, a: Action)
    requires WorkerCan(sh, me, a) && PastClaim(me) && EndsProperly(me)
    ensures var (sh', me') := WorkerMove(self, cap, sh, me, a);
            Eases(sh, sh') && EndsProperly(me') && (PastClaim(me') || me'.Idle?)
  {
  }

  lemma {:induction false} RestEases(self: WorkerId, cap: int, sh: Shared, me: Worker, acts: seq<Action>, sh': Shared)
    requires PollRest(self, cap, sh, me, acts, sh') && PastClaim(me) && EndsProperly(me)
    ensures Eases(sh, sh')
    decreases |acts|
  {
    MoveEases(self, cap, sh, me, acts[0]);
    var (sh1, me1) := WorkerMove(self, cap, sh, me, acts[0]);
    if !me1.Idle? {
      RestEases(self, cap, sh1, me1, acts[1..], sh');
    }
  }

  lemma EasedRank(t: Task, t': Task)
    requires Eased(t, t') && Claimable(t) && t.maxAttempts >= 1
    ensures Claimable(t') && t'.maxAttempts >= 1 && 0 <= Rank(t') <= Rank(t)
    ensures (t'.status == Queued <==> t.status == Queued) && (IsTerminal(t.status) ==> IsTerminal(t'.status))
  {
  }

  lemma EasesRows(sh: Shared, sh': Shared)
    requires Eases(sh, sh') && AllClaimable(sh.db)
    ensures AllClaimable(sh'.db)
    ensures forall t :: t in sh.db.tasks ==> 0 <= Rank(sh'.db.tasks[t]) <= Rank(sh.db.tasks[t])
    ensures forall t :: t in sh.db.tasks ==> (sh'.db.tasks[t].status == Queued <==> sh.db.tasks[t].status == Queued)
    ensures AllOver(sh.db) ==> AllOver(sh'.db)
  {
    forall t | t in sh.db.tasks
      ensures Claimable(sh'.db.tasks[t]) && sh'.db.tasks[t].maxAttempts >= 1
      ensures 0 <= Rank(sh'.db.tasks[t]) <= Rank(sh.db.tasks[t])
      ensures sh'.db.tasks[t].status == Queued <==> sh.db.tasks[t].status == Queued
      ensures IsTerminal(sh.db.tasks[t].status) ==> IsTerminal(sh'.db.tasks[t].status)
    {
      EasedRank(sh.db.tasks[t], sh'.db.tasks[t]);
    }
  }

  lemma EasesLowers(sh: Shared, sh': Shared)
    requires Eases(sh, sh') && AllClaimable(sh.db)
    ensures AllClaimable(sh'.db) && (AllOver(sh.db) ==> AllOver(sh'.db))
    ensures 0 <= Work(sh') <= Work(sh)
  {
    EasesRows(sh, sh');
    TotalFalls(sh.db.tasks, sh'.db.tasks, sh.db.tasks.Keys, {});
    assert Unlisted(sh'.db.tasks, sh'.queue) == Unlisted(sh.db.tasks, sh.queue);
  }

  /** After a pass and with no leases left, a poll ends at once if the queue is empty;
      otherwise it takes the oldest entry out and claims it if its task is queued. */
  lemma AfterPass(self: WorkerId, cap: int, sh: Shared, me: Worker, acts: seq<Action>, sh': Shared)
    returns (sh1: Shared, me1: Worker, rest: seq<Action>)
    requires PassOver(me) && PollRest(self, cap, sh, me, acts, sh') && sh.leases == map[] && cap >= 1
    ensures sh.queue == [] ==> sh' == sh
    ensures sh.queue != [] ==>
              && sh1.queue == sh.queue[..|sh.queue| - 1]
              && sh1.db == Claim(sh.db, sh.queue[|sh.queue| - 1], self).0
              && PastClaim(me1) && EndsProperly(me1) && PollRest(self, cap, sh1, me1, rest, sh')
  {
    sh1, me1, rest := sh, Through, acts[1..];
    assert PollRest(self, cap, sh1, me1, rest, sh');
    if sh.queue != [] {
      var id := sh.queue[|sh.queue| - 1];
      sh1, me1, rest := sh.(queue := sh.queue[..|sh.queue| - 1]), Holding(id), rest[1..];
      assert PollRest(self, cap, sh1, me1, rest, sh');
      var token := rest[0].token;
      sh1, me1, rest := sh1.(leases := map[id := token]), Leased(id, token), rest[1..];
      assert PollRest(self, cap, sh1, me1, rest, sh');
      var t := Claim(sh.db, id, self).1;
      sh1 := sh1.(db := Claim(sh.db, id, self).0);
      me1 := if t.Some? then Attempting(t.value, token, None, Starting) else Releasing(id, token);
      rest := rest[1..];
    }
  }

  lemma ClaimRows(db: Db, id: TaskId, self: WorkerId)
    requires AllClaimable(db)
    ensures var db' := Claim(db, id, self).0;
            && db'.tasks.Keys == db.tasks.Keys && AllClaimable(db') && (AllOver(db) ==> AllOver(db'))
            && (forall t :: t in db.tasks ==> 0 <= Rank(db'.tasks[t]) <= Rank(db.tasks[t]))
            && (forall t :: t in db.tasks && db'.tasks[t].status == Queued ==> db.tasks[t].status == Queued && t != id)
  {
  }

  lemma ClaimedLine(db: Db, queue: seq<TaskId>, self: WorkerId)
    requires AllClaimable(db) && queue != [] && Quiet(db, queue, map[])
    ensures Unlisted(Claim(db, queue[|queue| - 1], self).0.tasks, queue[..|queue| - 1]) == {}
  {
    var id, queue' := queue[|queue| - 1], queue[..|queue| - 1];
    ClaimRows(db, id, self);
    forall t | t in db.tasks && Claim(db, id, self).0.tasks[t].status == Queued ensures t in queue' {
      var i :| 0 <= i < |queue| && queue[i] == t;
      assert queue'[i] == t;
    }
  }

  /** The entry taken out of the queue is work done, whatever it was. */
  lemma ClaimLowersWork(sh: Shared, self: WorkerId, sh': Shared)
    requires AllClaimable(sh.db) && sh.queue != [] && Quiet(sh.db, sh.queue, map[])
    requires sh'.queue == sh.queue[..|sh.queue| - 1] && sh'.db == Claim(sh.db, sh.queue[|sh.queue| - 1], self).0
    ensures sh'.db.tasks.Keys == sh.db.tasks.Keys && AllClaimable(sh'.db) && (AllOver(sh.db) ==> AllOver(sh'.db))
    ensures Work(sh') < 2 * Total(sh.db.tasks, sh.db.tasks.Keys) + |sh.queue|
  {
    ClaimRows(sh.db, sh.queue[|sh.queue| - 1], self);
    ClaimedLine(sh.db, sh.queue, self);
    TotalFalls(sh.db.tasks, sh'.db.tasks, sh.db.tasks.Keys, {});
  }

  lemma QuietIsOver(db: Db)
    requires Quiet(db, [], map[])
    ensures AllOver(db)
  {
  }

  lemma WorkIsCounted(sh: Shared)
    requires AllClaimable(sh.db)
    ensures 0 <= Work(sh)
  {
    TotalFalls(sh.db.tasks, sh.db.tasks, sh.db.tasks.Keys, {});
  }

  lemma RestMakesProgress(self: WorkerId, cap: int, sh: Shared, me: Worker, acts: seq<Action>, sh': Shared)
    requires AllClaimable(sh.db) && Quiet(sh.db, sh.queue, map[]) && sh.leases == map[] && cap >= 1
    requires PassOver(me) && PollRest(self, cap, sh, me, acts, sh')
    ensures sh'.db.tasks.Keys == sh.db.tasks.Keys && AllClaimable(sh'.db) && (AllOver(sh.db) ==> AllOver(sh'.db))
    ensures AllOver(sh'.db) || Work(sh') < 2 * Total(sh.db.tasks, sh.db.tasks.Keys) + |sh.queue|
  {
    var sh1, me1, rest := AfterPass(self, cap, sh, me, acts, sh');
    if sh.queue == [] {
      QuietIsOver(sh.db);
    } else {
      ClaimLowersWork(sh, self, sh1);
      RestEases(self, cap, sh1, me1, rest, sh');
      EasesLowers(sh1, sh');
    }
  }

  /** With the leases gone, every poll brings the work down until all tasks are over,
      whatever the queue holds and whatever becomes of the attempt. */
  lemma PollMakesProgress(self: WorkerId, cap: int, sh: Shared, sh': Shared)
    requires AllClaimable(sh.db) && Keyed(sh.db.tasks) && sh.leases == map[] && cap >= 1
    requires Poll(self, cap, sh, sh')
    ensures sh'.db.tasks.Keys == sh.db.tasks.Keys && AllClaimable(sh'.db)
    ensures AllOver(sh.db) ==> AllOver(sh'.db)
    ensures 0 <= Work(sh') && (AllOver(sh'.db) || Work(sh') < Work(sh))
  {
    var pass, sh1, me1, rest :| PollVia(self, cap, sh, pass, sh1, me1, rest, sh');
    var stats := UndisturbedPass(self, cap, sh, pass, sh1, me1);
    PassLowersWork(sh.db, sh.queue, sh1.db, sh1.queue, stats);
    RestMakesProgress(self, cap, sh1, me1, rest, sh');
    WorkIsCounted(sh');
  }

  // ---------- recovery ----------

  /** Some worker starts over, all leases have expired, and it polls undisturbed. */
  ghost predicate CrashPoll(cfg: Config, s: State, s': State) {
    exists w, sh' ::
      w in s.workers && Poll(w, cfg.cap, s.sh.(leases := map[]), sh') && s' == Moved(s, w, sh', Idle)
  }

  ghost predicate CrashPolls(cfg: Config, states: seq<State>) {
    states != [] && forall i :: 0 <= i < |states| - 1 ==> CrashPoll(cfg, states[i], states[i + 1])
  }

  /** The steps by which it does: nothing but that worker's and the expiry of the leases. */
  lemma CrashPollIsRun(cfg: Config, s: State, s': State) returns (steps: seq<Step>)
    requires CrashPoll(cfg, s, s')
    ensures TameRun(cfg, s, steps, true, s')
  {
    var w, sh' :| w in s.workers && Poll(w, cfg.cap, s.sh.(leases := map[]), sh') && s' == Moved(s, w, sh', Idle);
    var s1 := Next(cfg, s, WorkerStep(w, Crash));
    var s2 := Next(cfg, s1, RedisLoss(s1.sh.queue, {}));
    var acts := PollDoes(w, cfg.cap, s2.sh, sh');
    DoesIsRun(cfg, s2, w, acts, sh', Idle);
    TameWeakens(cfg, s2, WorkerSteps(w, acts), true);
    TameFirst(cfg, s1, RedisLoss(s1.sh.queue, {}), WorkerSteps(w, acts), true, s');
    steps := [RedisLoss(s1.sh.queue, {})] + WorkerSteps(w, acts);
    TameFirst(cfg, s, WorkerStep(w, Crash), steps, true, s');
    steps := [WorkerStep(w, Crash)] + steps;
  }

  lemma CrashPollKeeps(cfg: Config, s: State, s': State)
    requires Inv(s) && CrashPoll(cfg, s, s') && AllClaimable(s.sh.db) && cfg.cap >= 1
    ensures Inv(s') && s'.sh.db.tasks.Keys == s.sh.db.tasks.Keys && AllClaimable(s'.sh.db)
    ensures AllOver(s.sh.db) ==> AllOver(s'.sh.db)
    ensures 0 <= Work(s'.sh) && (AllOver(s'.sh.db) || Work(s'.sh) < Work(s.sh))
  {
    var steps := CrashPollIsRun(cfg, s, s');
    RunKeeps(cfg, s, steps);
    var w, sh' :| w in s.workers && Poll(w, cfg.cap, s.sh.(leases := map[]), sh') && s' == Moved(s, w, sh', Idle);
    PollMakesProgress(w, cfg.cap, s.sh.(leases := map[]), sh');
  }

  lemma {:induction false} PollsMakeProgress(cfg: Config, states: seq<State>, n: nat)
    requires CrashPolls(cfg, states) && n < |states| && cfg.cap >= 1
    requires Inv(states[0]) && AllClaimable(states[0].sh.db)
    ensures Inv(states[n]) && AllClaimable(states[n].sh.db)
    ensures states[n].sh.db.tasks.Keys == states[0].sh.db.tasks.Keys
    ensures 0 <= Work(states[n].sh)
    ensures AllOver(states[n].sh.db) || Work(states[n].sh) <= Work(states[0].sh) - n
  {
    if n > 0 {
      PollsMakeProgress(cfg, states, n - 1);
      assert CrashPoll(cfg, states[n - 1], states[n - 1 + 1]);
      CrashPollKeeps(cfg, states[n - 1], states[n]);
    } else {
      WorkIsCounted(states[0].sh);
    }
  }

  lemma InvClaims(s: State)
    requires Inv(s) && forall t :: t in s.sh.db.tasks ==> s.sh.db.tasks[t].maxAttempts >= 1
    ensures AllClaimable(s.sh.db)
  {
  }

  /** From any reachable state in which every task was given at least one attempt, and with
      at least one slot: more polls than the work adds up to end every task, whichever
      workers make them and whatever the queue holds, if before each the leases expire and
      in each the worker may die at any moment after its claim. */
  lemma CrashesTerminate(cfg: Config, steps: seq<Step>, states: seq<State>)
    requires IsRun(cfg, Init(cfg), steps) && CrashPolls(cfg, states) && cfg.cap >= 1
    requires states[0] == Run(cfg, Init(cfg), steps)
    requires forall t :: t in states[0].sh.db.tasks ==> states[0].sh.db.tasks[t].maxAttempts >= 1
    requires |states| - 1 > Work(states[0].sh)
    ensures AllOver(states[|states| - 1].sh.db)
    ensures states[|states| - 1].sh.db.tasks.Keys == states[0].sh.db.tasks.Keys
  {
    InitHolds(cfg);
    RunKeeps(cfg, Init(cfg), steps);
    InvClaims(states[0]);
    AllPolled(cfg, states);
  }

  lemma AllPolled(cfg: Config, states: seq<State>)
    requires CrashPolls(cfg, states) && cfg.cap >= 1 && Inv(states[0]) && AllClaimable(states[0].sh.db)
    requires |states| - 1 > Work(states[0].sh)
    ensures AllOver(states[|states| - 1].sh.db)
    ensures states[|states| - 1].sh.db.tasks.Keys == states[0].sh.db.tasks.Keys
  {
    PollsMakeProgress(cfg, states, |states| - 1);
  }

  // ---------- such polls exist ----------

  lemma PollStep(self: WorkerId, cap: int, sh: Shared, me: Worker, a: Action, more: seq<Action>, sh': Shared)
    requires WorkerCan(sh, me, a) && (a.Crash? ==> PastClaim(me))
    requires var (sh1, me1) := WorkerMove(self, cap, sh, me, a);
             if me1.Idle? then more == [] && sh' == sh1 else PollRest(self, cap, sh1, me1, more, sh')
    ensures PollRest(self, cap, sh, me, [a] + more, sh')
  {
    assert ([a] + more)[1..] == more;
  }

  /** From the dequeued id on: take the lease, claim, and die. */
  lemma HoldingEnds(self: WorkerId, cap: int, sh: Shared, id: TaskId) returns (acts: seq<Action>, sh': Shared)
    ensures PollRest(self, cap, sh, Holding(id), acts, sh')
  {
    var token := Token("");
    var (sh1, me1) := WorkerMove(self, cap, sh, Holding(id), Acquire(token));
    if me1.Idle? {
      acts, sh' := [], sh1;
    } else {
      var (sh2, me2) := WorkerMove(self, cap, sh1, me1, Advance);
      sh' := sh2;
      PollStep(self, cap, sh2, me2, Crash, [], sh');
      PollStep(self, cap, sh1, me1, Advance, [Crash] + [], sh');
      acts := [Advance] + ([Crash] + []);
    }
    PollStep(self, cap, sh, Holding(id), Acquire(token), acts, sh');
    acts := [Acquire(token)] + acts;
  }

  lemma RestCanEnd(self: WorkerId, cap: int, sh: Shared, inRedis: set<TaskId>) returns (acts: seq<Action>, sh': Shared)
    ensures PollRest(self, cap, sh, Repushing(inRedis, []), acts, sh')
  {
    acts, sh' := [], sh;
    if |sh.leases| < cap {
      if sh.queue != [] {
        acts, sh' := HoldingEnds(self, cap, sh.(queue := sh.queue[..|sh.queue| - 1]), sh.queue[|sh.queue| - 1]);
      }
      PollStep(self, cap, sh, Through, Advance, acts, sh');
      acts := [Advance] + acts;
    }
    PollStep(self, cap, sh, Repushing(inRedis, []), Advance, acts, sh');
    acts := [Advance] + acts;
  }

  lemma PollCanBeMade(self: WorkerId, cap: int, sh: Shared) returns (sh': Shared)
    requires Keyed(sh.db.tasks)
    ensures Poll(self, cap, sh, sh')
  {
    var pass, sh1, inRedis := PassCanBeMade(self, cap, sh);
    var rest;
    rest, sh' := RestCanEnd(self, cap, sh1, inRedis);
    assert PollVia(self, cap, sh, pass, sh1, Repushing(inRedis, []), rest, sh');
  }

  lemma {:induction false} PollsToTheEnd(cfg: Config, s: State, w: WorkerId) returns (steps: seq<Step>, s': State)
    requires Inv(s) && AllClaimable(s.sh.db) && cfg.cap >= 1 && w in s.workers
    ensures TameRun(cfg, s, steps, true, s') && AllOver(s'.sh.db)
    decreases if AllOver(s.sh.db) then 0 else 1, if Work(s.sh) < 0 then 0 else Work(s.sh)
  {
    WorkIsCounted(s.sh);
    steps, s' := [], s;
    if !AllOver(s.sh.db) {
      var sh' := PollCanBeMade(w, cfg.cap, s.sh.(leases := map[]));
      var s1 := Moved(s, w, sh', Idle);
      assert CrashPoll(cfg, s, s1);
      CrashPollKeeps(cfg, s, s1);
      var first := CrashPollIsRun(cfg, s, s1);
      var more;
      more, s' := PollsToTheEnd(cfg, s1, w);
      RunJoin(cfg, s, first, more);
      TameJoin(cfg, s, first, more, true);
      steps := first + more;
    }
  }

  /** So from every reachable state a single worker that crashes in every attempt ends all
      tasks, with nothing but its own steps and the expiry of leases. */
  lemma RecoveryIsPossible(cfg: Config, steps: seq<Step>) returns (more: seq<Step>, end: State)
    requires IsRun(cfg, Init(cfg), steps) && cfg.cap >= 1 && Run(cfg, Init(cfg), steps).workers != map[]
    requires var db := Run(cfg, Init(cfg), steps).sh.db; forall t :: t in db.tasks ==> db.tasks[t].maxAttempts >= 1
    ensures TameRun(cfg, Run(cfg, Init(cfg), steps), more, true, end) && AllOver(end.sh.db)
  {
    InitHolds(cfg);
    RunKeeps(cfg, Init(cfg), steps);
    var s := Run(cfg, Init(cfg), steps);
    InvClaims(s);
    var w :| w in s.workers;
    more, end := PollsToTheEnd(cfg, s, w);
  }

  // ---------- a task that crashes every time ----------

  /** The polls one after the other are a run, in which nothing but leases expires. */
  lemma {:induction false} PollsAreRun(cfg: Config, states: seq<State>, n: nat) returns (steps: seq<Step>)
    requires CrashPolls(cfg, states) && n < |states|
    ensures TameRun(cfg, states[0], steps, true, states[n])
  {
    if n == 0 {
      steps := [];
    } else {
      var first := PollsAreRun(cfg, states, n - 1);
      assert CrashPoll(cfg, states[n - 1], states[n - 1 + 1]);
      var last := CrashPollIsRun(cfg, states[n - 1], states[n]);
      RunJoin(cfg, states[0], first, last);
      TameJoin(cfg, states[0], first, last, true);
      steps := first + last;
    }
  }

  /** Crash progress for one task: after more polls than the work adds up to, over the whole
      run, a task of which no attempt finished and which nobody cancelled while queued has
      failed with `retries_exhausted`, claimed exactly `max_attempts` times. */
  lemma FreshTaskExhausts(cfg: Config, steps: seq<Step>, states: seq<State>, t: TaskId) returns (all: seq<Step>)
    requires IsRun(cfg, Init(cfg), steps) && CrashPolls(cfg, states) && cfg.cap >= 1
    requires states[0] == Run(cfg, Init(cfg), steps) && t in states[0].sh.db.tasks
    requires forall id :: id in states[0].sh.db.tasks ==> states[0].sh.db.tasks[id].maxAttempts >= 1
    requires |states| - 1 > Work(states[0].sh)
    ensures steps <= all && IsRun(cfg, Init(cfg), all) && Run(cfg, Init(cfg), all) == states[|states| - 1]
    ensures t in states[|states| - 1].sh.db.tasks
    ensures var w, row := Word(EMPTY, RunCalls(cfg, Init(cfg), all), t), states[|states| - 1].sh.db.tasks[t];
            OnlyCrashes(w) ==>
              row.status == Failed && row.failureReason == Some(RetriesExhausted)
              && 1 <= row.maxAttempts == row.attempt && w == UsedUp(row.maxAttempts)
  {
    CrashesTerminate(cfg, steps, states);
    var more := PollsAreRun(cfg, states, |states| - 1);
    RunJoin(cfg, Init(cfg), steps, more);
    all := steps + more;
    if OnlyCrashes(Word(EMPTY, RunCalls(cfg, Init(cfg), all), t)) {
      CrashedTaskExhausts(cfg, all, t);
    }
  }
}

/** worker/reconcile.py: one undisturbed repair pass. (Module System interleaves the
    same pass, command by command, with everything else.) */
module Reconcile {
  import opened Models
  import opened Database
  import opened Store
  import opened Bus

  datatype Stats = Stats(reclaimed: nat, exhausted: nat, repushed: nat)

  // ---------- what a pass owes ----------

  predicate Orphaned(t: Task, leased: bool) {
    t.status == Running && !leased
  }

  ghost function Reclaimable(tasks: map<TaskId, Task>, leases: map<TaskId, Token>): set<TaskId> {
    set id | id in tasks && Orphaned(tasks[id], id in leases) && tasks[id].attempt < tasks[id].maxAttempts
  }

  ghost function OutOfAttempts(tasks: map<TaskId, Task>, leases: map<TaskId, Token>): set<TaskId> {
    set id | id in tasks && Orphaned(tasks[id], id in leases) && tasks[id].attempt >= tasks[id].maxAttempts
  }

  ghost function Unlisted(tasks: map<TaskId, Task>, queue: seq<TaskId>): set<TaskId> {
    set id | id in tasks && tasks[id].status == Queued && id !in queue
  }

  function Repaired(t: Task, leased: bool): Task {
    if !Orphaned(t, leased) then t
    else if t.attempt < t.maxAttempts then t.(status := Queued, workerId := None)
    else t.(status := Failed, failureReason := Some(RetriesExhausted))
  }

  function Mourned(events: seq<Event>): seq<TaskId> {
    seq(|events|, i requires 0 <= i < |events| => events[i].taskId)
  }

  predicate IsObituary(e: Event, tasks: map<TaskId, Task>) {
    && e.taskId in tasks && e.attempt == tasks[e.taskId].attempt
    && e.kind == JobFailed && e.payload == RETRIES_PAYLOAD
  }

  /** The terminal events of a pass: exactly one for each task that ran out of attempts. */
  predicate Obituaries(events: seq<Event>, tasks: map<TaskId, Task>, dead: set<TaskId>) {
    && (forall i :: 0 <= i < |events| ==> IsObituary(events[i], tasks))
    && multiset(Mourned(events)) == multiset(dead)
  }

  /** The queue keeps its entries and gains exactly one for each id in `added`. */
  predicate Pushed(queue: seq<TaskId>, queue': seq<TaskId>, added: set<TaskId>) {
    && |queue| <= |queue'| && queue'[|queue'| - |queue|..] == queue
    && multiset(queue'[..|queue'| - |queue|]) == multiset(added)
  }

  ghost predicate RowsMended(before: map<TaskId, Task>, leases: map<TaskId, Token>, after: map<TaskId, Task>) {
    && after.Keys == before.Keys
    && (forall id :: id in before ==> after[id] == Repaired(before[id], id in leases))
  }

  /** What a pass does to the database. */
  ghost predicate Mends(db: Db, leases: map<TaskId, Token>, db': Db) {
    && RowsMended(db.tasks, leases, db'.tasks)
    && |db.log| <= |db'.log| && db'.log[..|db.log|] == db.log
    && Obituaries(db'.log[|db.log|..], db.tasks, OutOfAttempts(db.tasks, leases))
  }

  /** Everything one pass does, as a relation between the two states. */
  ghost predicate Pass(db: Db, queue: seq<TaskId>, leases: map<TaskId, Token>,
                       db': Db, queue': seq<TaskId>, stats: Stats)
  {
    && Mends(db, leases, db')
    && Pushed(queue, queue', Reclaimable(db.tasks, leases) + Unlisted(db.tasks, queue))
    && stats == Stats(|Reclaimable(db.tasks, leases)|, |OutOfAttempts(db.tasks, leases)|,
                      |Unlisted(db.tasks, queue)|)
  }

  // ---------- the pass, row by row ----------

  lemma PushedKeeps(queue: seq<TaskId>, queue': seq<TaskId>, added: set<TaskId>)
    requires Pushed(queue, queue', added)
    ensures forall id :: id in queue' <==> id in queue || id in added
    ensures added == {} ==> queue' == queue
  {
    var front := queue'[..|queue'| - |queue|];
    assert queue' == front + queue;
    assert forall id :: id in front <==> id in multiset(front);
    assert |front| == |multiset(front)|;
  }

  lemma PushedFront(front: seq<TaskId>, queue: seq<TaskId>, added: set<TaskId>)
    requires multiset(front) == multiset(added)
    ensures Pushed(queue, front + queue, added)
  {
    assert (front + queue)[|front|..] == queue;
    assert (front + queue)[..|front|] == front;
  }

  lemma MendedLog(log: seq<Event>, news: seq<Event>)
    ensures (log + news)[..|log|] == log && (log + news)[|log|..] == news
  {
  }

  lemma BuryOne(events: seq<Event>, tasks: map<TaskId, Task>, dead: set<TaskId>, e: Event)
    requires Obituaries(events, tasks, dead) && e.taskId !in dead && IsObituary(e, tasks)
    ensures Obituaries(events + [e], tasks, dead + {e.taskId}) && |dead + {e.taskId}| == |dead| + 1
  {
    assert Mourned(events + [e]) == Mourned(events) + [e.taskId];
  }

  /** The rows when those in `done` have been dealt with. */
  ghost predicate HalfMended(before: map<TaskId, Task>, leases: map<TaskId, Token>, done: set<TaskId>,
                             after: map<TaskId, Task>)
  {
    && after.Keys == before.Keys
    && (forall id :: id in before ==>
          after[id] == if id in done then Repaired(before[id], id in leases) else before[id])
  }

  lemma MendNext(before: map<TaskId, Task>, leases: map<TaskId, Token>, done: set<TaskId>,
                 after: map<TaskId, Task>, t: Task)
    requires HalfMended(before, leases, done, after) && t.id in before && before[t.id] == t && t.id !in done
    ensures after[t.id] == t
    ensures HalfMended(before, leases, done + {t.id}, after[t.id := Repaired(t, t.id in leases)])
  {
  }

  /** `done` is the set of ids of the first `k` rows. */
  ghost predicate Visited(rows: seq<Task>, k: nat, done: set<TaskId>) {
    k <= |rows| && multiset(RowIds(rows)[..k]) == multiset(done)
  }

  lemma VisitNext(rows: seq<Task>, tasks: map<TaskId, Task>, status: Status, k: nat, done: set<TaskId>,
                  work: set<TaskId>)
    requires Lists(rows, tasks, status) && Visited(rows, k, done) && k < |rows|
    ensures Visited(rows, k + 1, done + {rows[k].id})
    ensures rows[k].id !in done && rows[k].id in WithStatus(tasks, status)
    ensures rows[k].id in work ==> work * (done + {rows[k].id}) == work * done + {rows[k].id}
    ensures rows[k].id !in work ==> work * (done + {rows[k].id}) == work * done
  {
    var ids, id := RowIds(rows), rows[k].id;
    assert ids == ids[..k] + [ids[k]] + ids[k + 1..];
    assert ids[..k + 1] == ids[..k] + [id];
    assert multiset(ids)[id] == multiset(WithStatus(tasks, status))[id] <= 1;
  }

  lemma VisitedAll(rows: seq<Task>, tasks: map<TaskId, Task>, status: Status, done: set<TaskId>, work: set<TaskId>)
    requires Lists(rows, tasks, status) && Visited(rows, |rows|, done)
    requires work <= WithStatus(tasks, status)
    ensures done == WithStatus(tasks, status) && work * done == work
  {
    assert RowIds(rows)[..|rows|] == RowIds(rows);
    forall id ensures id in done <==> id in WithStatus(tasks, status) {
      assert multiset(done)[id] == multiset(WithStatus(tasks, status))[id];
    }
  }

  lemma PushOne(front: seq<TaskId>, got: set<TaskId>, id: TaskId)
    requires multiset(front) == multiset(got) && id !in got
    ensures multiset([id] + front) == multiset(got + {id}) && |got + {id}| == |got| + 1
  {
  }

  /** The row's lease is gone, and nobody has changed the row since it was read. */
  predicate Reclaims(sh: Shared, t: Task) {
    t.id !in sh.leases && t.attempt < t.maxAttempts && RunsAttempt(sh.db, t.id, t.attempt)
  }

  predicate Buries(sh: Shared, t: Task) {
    t.id !in sh.leases && t.attempt >= t.maxAttempts && RunsAttempt(sh.db, t.id, t.attempt)
  }

  /** What phase 1 does with one row of its snapshot. */
  function Treated(sh: Shared, t: Task): Shared {
    if t.id in sh.leases then sh
    else if t.attempt < t.maxAttempts then
      var (db, ok) := Requeue(sh.db, t.id, t.attempt);
      if ok then sh.(db := db, queue := [t.id] + sh.queue) else sh
    else
      var (db, e) := FailExhausted(sh.db, t.id, t.attempt);
      if e.Some? then sh.(db := db, published := sh.published + [e.value]) else sh
  }

  /** The bookkeeping of phase 1: rows dealt with, ids requeued, ids failed, and what
      was pushed and logged for them. */
  datatype Progress = Progress(done: set<TaskId>, got: set<TaskId>, dead: set<TaskId>, front: seq<TaskId>,
                               news: seq<Event>)

  ghost predicate Halfway(sh0: Shared, sh: Shared, rows: seq<Task>, k: nat, p: Progress) {
    && sh.leases == sh0.leases && Lists(rows, sh0.db.tasks, Running) && Visited(rows, k, p.done)
    && HalfMended(sh0.db.tasks, sh0.leases, p.done, sh.db.tasks)
    && p.got == Reclaimable(sh0.db.tasks, sh0.leases) * p.done
    && p.dead == OutOfAttempts(sh0.db.tasks, sh0.leases) * p.done
    && sh.queue == p.front + sh0.queue && multiset(p.front) == multiset(p.got)
    && sh.db.log == sh0.db.log + p.news && Obituaries(p.news, sh0.db.tasks, p.dead)
    && sh.published == sh0.published + p.news
  }

  lemma TreatedRow(sh: Shared, t: Task)
    requires t.id in sh.db.tasks && sh.db.tasks[t.id] == t && t.status == Running
    ensures var sh' := Treated(sh, t);
            && sh'.db.tasks == sh.db.tasks[t.id := Repaired(t, t.id in sh.leases)]
            && sh'.leases == sh.leases
            && (t.id !in sh.leases && t.attempt < t.maxAttempts ==>
                  sh' == sh.(db := sh'.db, queue := [t.id] + sh.queue) && sh'.db.log == sh.db.log)
            && (t.id !in sh.leases && t.attempt >= t.maxAttempts ==>
                  var e := NextEvent(sh.db.log, t.id, t.attempt, JobFailed, RETRIES_PAYLOAD);
                  sh'.queue == sh.queue && sh'.db.log == sh.db.log + [e] && sh'.published == sh.published + [e])
            && (t.id in sh.leases ==> sh' == sh)
  {
  }

  lemma HalfwayNext(sh0: Shared, sh: Shared, rows: seq<Task>, k: nat, p: Progress) returns (p': Progress)
    requires Halfway(sh0, sh, rows, k, p) && k < |rows| && Keyed(sh0.db.tasks)
    ensures Halfway(sh0, Treated(sh, rows[k]), rows, k + 1, p')
    ensures |p'.got| == |p.got| + if Reclaims(sh, rows[k]) then 1 else 0
    ensures |p'.dead| == |p.dead| + if Buries(sh, rows[k]) then 1 else 0
  {
    var t := rows[k];
    VisitNext(rows, sh0.db.tasks, Running, k, p.done, Reclaimable(sh0.db.tasks, sh0.leases));
    VisitNext(rows, sh0.db.tasks, Running, k, p.done, OutOfAttempts(sh0.db.tasks, sh0.leases));
    MendNext(sh0.db.tasks, sh0.leases, p.done, sh.db.tasks, t);
    TreatedRow(sh, t);
    if t.id in sh.leases {
      p' := p.(done := p.done + {t.id});
    } else if t.attempt < t.maxAttempts {
      p' := p.(done := p.done + {t.id}, got := p.got + {t.id}, front := [t.id] + p.front);
      PushOne(p.front, p.got, t.id);
      Associative([t.id], p.front, sh0.queue);
    } else {
      var e := NextEvent(sh.db.log, t.id, t.attempt, JobFailed, RETRIES_PAYLOAD);
      p' := p.(done := p.done + {t.id}, dead := p.dead + {t.id}, news := p.news + [e]);
      BuryOne(p.news, sh0.db.tasks, p.dead, e);
      Associative(sh0.db.log, p.news, [e]);
      Associative(sh0.published, p.news, [e]);
    }
  }

  lemma HalfwayOver(sh0: Shared, sh: Shared, rows: seq<Task>, p: Progress)
    requires Halfway(sh0, sh, rows, |rows|, p)
    ensures p.got == Reclaimable(sh0.db.tasks, sh0.leases) && p.dead == OutOfAttempts(sh0.db.tasks, sh0.leases)
    ensures Mends(sh0.db, sh0.leases, sh.db)
    ensures sh.published == sh0.published + sh.db.log[|sh0.db.log|..]
  {
    VisitedAll(rows, sh0.db.tasks, Running, p.done, Reclaimable(sh0.db.tasks, sh0.leases));
    VisitedAll(rows, sh0.db.tasks, Running, p.done, OutOfAttempts(sh0.db.tasks, sh0.leases));
    MendedLog(sh0.db.log, p.news);
  }

  lemma StartHalfway(sh: Shared, rows: seq<Task>)
    requires Lists(rows, sh.db.tasks, Running)
    ensures Halfway(sh, sh, rows, 0, Progress({}, {}, {}, [], []))
  {
  }

  /** `front` holds the lost ones among the rows of `done`. */
  ghost predicate HalfPushed(db: Db, queue0: seq<TaskId>, rows: seq<Task>, k: nat, done: set<TaskId>,
                             front: seq<TaskId>) {
    && Lists(rows, db.tasks, Queued) && Visited(rows, k, done)
    && multiset(front) == multiset(Unlisted(db.tasks, queue0) * done)
  }

  lemma HalfPushedNext(db: Db, queue0: seq<TaskId>, inRedis: set<TaskId>, rows: seq<Task>, k: nat,
                       done: set<TaskId>, front: seq<TaskId>)
    requires HalfPushed(db, queue0, rows, k, done, front) && k < |rows|
    requires forall id :: id in inRedis <==> id in queue0
    ensures HalfPushed(db, queue0, rows, k + 1, done + {rows[k].id},
                       if rows[k].id in inRedis then front else [rows[k].id] + front)
  {
    var id := rows[k].id;
    VisitNext(rows, db.tasks, Queued, k, done, Unlisted(db.tasks, queue0));
    if id !in inRedis {
      PushOne(front, Unlisted(db.tasks, queue0) * done, id);
    }
  }

  lemma Relisted(before: map<TaskId, Task>, leases: map<TaskId, Token>, after: map<TaskId, Task>,
                 queue: seq<TaskId>, front: seq<TaskId>)
    requires RowsMended(before, leases, after)
    requires multiset(front) == multiset(Reclaimable(before, leases))
    ensures Unlisted(after, front + queue) == Unlisted(before, queue)
  {
    assert forall id :: id in front <==> id in multiset(front);
  }

  lemma PassMade(db: Db, queue: seq<TaskId>, leases: map<TaskId, Token>, db': Db, front1: seq<TaskId>,
                 front2: seq<TaskId>, stats: Stats)
    requires Mends(db, leases, db')
    requires multiset(front1) == multiset(Reclaimable(db.tasks, leases))
    requires multiset(front2) == multiset(Unlisted(db'.tasks, front1 + queue))
    requires stats == Stats(|Reclaimable(db.tasks, leases)|, |OutOfAttempts(db.tasks, leases)|,
                            |Unlisted(db'.tasks, front1 + queue)|)
    ensures Pass(db, queue, leases, db', front2 + (front1 + queue), stats)
  {
    Relisted(db.tasks, leases, db'.tasks, queue, front1);
    Associative(front2, front1, queue);
    PushedFront(front2 + front1, queue, Reclaimable(db.tasks, leases) + Unlisted(db.tasks, queue));
  }

  // ---------- the pass ----------

  ghost function Scene(store: TaskStore, bus: QueueBus): Shared
    reads store, bus
  {
    Shared(store.View(), bus.queue, bus.leases, bus.published)
  }

  /** Phase 1 on one row of the snapshot, stale or not. */
  method RepairOne(store: TaskStore, bus: QueueBus, t: Task) returns (reclaimed: bool, exhausted: bool)
    requires store.Valid()
    modifies store, bus`queue, bus`published
    ensures store.Valid() && Scene(store, bus) == Treated(old(Scene(store, bus)), t)
    ensures reclaimed <==> Reclaims(old(Scene(store, bus)), t)
    ensures exhausted <==> Buries(old(Scene(store, bus)), t)
  {
    reclaimed, exhausted := false, false;
    var token := bus.LeaseToken(t.id);
    if token.Some? {
      return;
    }
    if t.attempt < t.maxAttempts {
      reclaimed := store.Requeue(t.id, t.attempt);
      if reclaimed {
        bus.Enqueue(t.id);
      }
    } else {
      var e := store.FailExhausted(t.id, t.attempt);
      if e.Some? {
        bus.PublishEvent(e.value);
        exhausted := true;
      }
    }
  }

  /** One turn of phase 1, with its bookkeeping. */
  method RepairNext(store: TaskStore, bus: QueueBus, rows: seq<Task>, k: nat, ghost start: Shared, ghost p: Progress)
    returns (reclaimed: bool, exhausted: bool, ghost p': Progress)
    requires store.Valid() && Keyed(start.db.tasks) && k < |rows| && Halfway(start, Scene(store, bus), rows, k, p)
    modifies store, bus`queue, bus`published
    ensures store.Valid() && Halfway(start, Scene(store, bus), rows, k + 1, p')
    ensures |p'.got| == |p.got| + if reclaimed then 1 else 0
    ensures |p'.dead| == |p.dead| + if exhausted then 1 else 0
  {
    p' := HalfwayNext(start, Scene(store, bus), rows, k, p);
    reclaimed, exhausted := RepairOne(store, bus, rows[k]);
  }

  /** Phase 1: running tasks whose lease vanished. */
  method RepairRunning(store: TaskStore, bus: QueueBus) returns (reclaimed: nat, exhausted: nat, ghost p: Progress)
    requires store.Valid()
    modifies store, bus`queue, bus`published
    ensures store.Valid() && Mends(old(store.View()), old(bus.leases), store.View()) && bus.leases == old(bus.leases)
    ensures reclaimed == |Reclaimable(old(store.tasks), old(bus.leases))|
    ensures exhausted == |OutOfAttempts(old(store.tasks), old(bus.leases))|
    ensures bus.queue == p.front + old(bus.queue)
    ensures multiset(p.front) == multiset(Reclaimable(old(store.tasks), old(bus.leases)))
    ensures bus.published == old(bus.published) + store.log[|old(store.log)|..]
  {
    ghost var start := Scene(store, bus);
    p := Progress({}, {}, {}, [], []);
    reclaimed, exhausted := 0, 0;
    var rows := store.TasksWithStatus(Running);
    StartHalfway(start, rows);
    for k := 0 to |rows|
      invariant store.Valid() && Halfway(start, Scene(store, bus), rows, k, p)
      invariant reclaimed == |p.got| && exhausted == |p.dead|
    {
      var again, over;
      again, over, p := RepairNext(store, bus, rows, k, start, p);
      reclaimed := reclaimed + if again then 1 else 0;
      exhausted := exhausted + if over then 1 else 0;
    }
    HalfwayOver(start, Scene(store, bus), rows, p);
  }

  /** Phase 2: queued tasks that the Redis list has lost. */
  method RepushQueued(store: TaskStore, bus: QueueBus) returns (repushed: nat, ghost front: seq<TaskId>)
    requires store.Valid()
    modifies bus`queue
    ensures repushed == |Unlisted(store.tasks, old(bus.queue))|
    ensures bus.queue == front + old(bus.queue)
    ensures multiset(front) == multiset(Unlisted(store.tasks, old(bus.queue)))
  {
    ghost var done: set<TaskId> := {};
    front := [];
    repushed := 0;
    var inRedis := bus.QueuedIds();
    var rows := store.TasksWithStatus(Queued);
    for k := 0 to |rows|
      invariant bus.queue == front + old(bus.queue) && HalfPushed(store.View(), old(bus.queue), rows, k, done, front)
      invariant repushed == |front|
    {
      HalfPushedNext(store.View(), old(bus.queue), inRedis, rows, k, done, front);
      if rows[k].id !in inRedis {
        bus.Enqueue(rows[k].id);
        repushed := repushed + 1;
        Associative([rows[k].id], front, old(bus.queue));
        front := [rows[k].id] + front;
      }
      done := done + {rows[k].id};
    }
    VisitedAll(rows, store.tasks, Queued, done, Unlisted(store.tasks, old(bus.queue)));
    assert |front| == |multiset(front)|;
  }

  method Reconcile(store: TaskStore, bus: QueueBus) returns (stats: Stats)
    requires store.Valid()
    modifies store, bus`queue, bus`published
    ensures store.Valid()
    ensures Pass(old(store.View()), old(bus.queue), bus.leases, store.View(), bus.queue, stats)
    ensures bus.published == old(bus.published) + store.log[|old(store.log)|..]
  {
    var reclaimed, exhausted, p := RepairRunning(store, bus);
    var repushed, front2 := RepushQueued(store, bus);
    stats := Stats(reclaimed, exhausted, repushed);
    PassMade(old(store.View()), old(bus.queue), bus.leases, store.View(), p.front, front2, stats);
  }

  // ---------- what a pass achieves ----------

  lemma MendedRows(db: Db, leases: map<TaskId, Token>, db': Db)
    requires Mends(db, leases, db')
    ensures forall id :: id in db'.tasks && db'.tasks[id].status == Running ==> id in leases
    ensures db'.tasks.Keys == db.tasks.Keys
    ensures forall id :: id in db.tasks && !Orphaned(db.tasks[id], id in leases) ==> db'.tasks[id] == db.tasks[id]
  {
  }

  lemma MendedQueue(db: Db, queue: seq<TaskId>, leases: map<TaskId, Token>, db': Db, queue': seq<TaskId>)
    requires Mends(db, leases, db')
    requires forall id :: id in queue' <==>
               id in queue || id in Reclaimable(db.tasks, leases) + Unlisted(db.tasks, queue)
    ensures forall id :: id in db'.tasks && db'.tasks[id].status == Queued ==> id in queue'
  {
  }

  /** From any tables and any Redis contents, one pass leaves every running task leased
      and every queued task in the queue; and it rewrites no row that is not orphaned. */
  lemma PassRepairs(db: Db, queue: seq<TaskId>, leases: map<TaskId, Token>,
                    db': Db, queue': seq<TaskId>, stats: Stats)
    requires Pass(db, queue, leases, db', queue', stats)
    ensures forall id :: id in db'.tasks && db'.tasks[id].status == Running ==> id in leases
    ensures forall id :: id in db'.tasks && db'.tasks[id].status == Queued ==> id in queue'
    ensures db'.tasks.Keys == db.tasks.Keys
    ensures forall id :: id in db.tasks && !Orphaned(db.tasks[id], id in leases) ==> db'.tasks[id] == db.tasks[id]
  {
    PushedKeeps(queue, queue', Reclaimable(db.tasks, leases) + Unlisted(db.tasks, queue));
    MendedRows(db, leases, db');
    MendedQueue(db, queue, leases, db', queue');
  }

  /** Nothing is out of place: running tasks are leased, queued ones are in the queue. */
  ghost predicate Quiet(db: Db, queue: seq<TaskId>, leases: map<TaskId, Token>) {
    && (forall id :: id in db.tasks && db.tasks[id].status == Running ==> id in leases)
    && (forall id :: id in db.tasks && db.tasks[id].status == Queued ==> id in queue)
  }

  lemma NothingToMend(db: Db, leases: map<TaskId, Token>, db': Db)
    requires Mends(db, leases, db')
    requires forall id :: id in db.tasks && db.tasks[id].status == Running ==> id in leases
    ensures Reclaimable(db.tasks, leases) == {} && OutOfAttempts(db.tasks, leases) == {} && db' == db
  {
    assert OutOfAttempts(db.tasks, leases) == {};
    var events := db'.log[|db.log|..];
    assert events == [] by {
      assert |Mourned(events)| == |multiset(Mourned(events))|;
    }
    assert db'.log == db'.log[..|db.log|] + events;
    assert db'.tasks == db.tasks;
  }

  /** Where nothing is out of place, a pass changes nothing. */
  lemma QuietPass(db: Db, queue: seq<TaskId>, leases: map<TaskId, Token>,
                  db': Db, queue': seq<TaskId>, stats: Stats)
    requires Pass(db, queue, leases, db', queue', stats) && Quiet(db, queue, leases)
    ensures db' == db && queue' == queue && stats == Stats(0, 0, 0)
  {
    NothingToMend(db, leases, db');
    assert Unlisted(db.tasks, queue) == {};
    PushedKeeps(queue, queue', {});
  }

  /** A second pass right after the first finds nothing to do. */
  lemma SecondPassIsIdle(db: Db, queue: seq<TaskId>, leases: map<TaskId, Token>,
                         db': Db, queue': seq<TaskId>, stats: Stats,
                         db'': Db, queue'': seq<TaskId>, stats': Stats)
    requires Pass(db, queue, leases, db', queue', stats)
    requires Pass(db', queue', leases, db'', queue'', stats')
    ensures db'' == db' && queue'' == queue' && stats' == Stats(0, 0, 0)
  {
    PassRepairs(db, queue, leases, db', queue', stats);
    QuietPass(db', queue', leases, db'', queue'', stats');
  }
}

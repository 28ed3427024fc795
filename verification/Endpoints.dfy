/** The entry points when nothing else runs meanwhile: `create_task` and `cancel_task`
    (api/main.py) and `poll_once` up to the claim (worker/main.py). Module System
    interleaves the same commands with everything else. */
module Endpoints {
  import opened Models
  import opened Database
  import opened History
  import opened Store
  import opened Bus
  import opened Reconcile

  const MAX_ATTEMPTS := 2

  method CreateTask(store: TaskStore, bus: QueueBus, id: TaskId, prompt: string, key: Option<string>)
    returns (r: Creation)
    requires store.Valid() && UniqueKeys(store.View())
    modifies store, bus`queue
    ensures store.Valid() && UniqueKeys(store.View())
    ensures (store.View(), r) == Create(old(store.View()), id, prompt, key, MAX_ATTEMPTS)
    ensures bus.queue == if r.Created? then [id] + old(bus.queue) else old(bus.queue)
    ensures r.Existing? ==> store.View() == old(store.View()) && r.task == store.tasks[r.task.id]
  {
    CreateKeepsKeys(store.View(), id, prompt, key, MAX_ATTEMPTS);
    r := store.CreateTask(id, prompt, key, MAX_ATTEMPTS);
    if r.Created? {
      bus.Enqueue(id);
    }
  }

  datatype CancelAnswer = NotFound | Answer(status: Status, requested: bool)

  /** Afterwards the task is over or flagged; a queued one is over at once, with its one
      terminal event; a task that is over is left alone. */
  method CancelTask(store: TaskStore, bus: QueueBus, id: TaskId) returns (r: CancelAnswer)
    requires store.Valid()
    modifies store, bus`published
    ensures store.Valid()
    ensures r.NotFound? <==> id !in old(store.tasks)
    ensures store.tasks.Keys == old(store.tasks).Keys
    ensures forall t :: t in store.tasks && t != id ==> store.tasks[t] == old(store.tasks)[t]
    ensures id in store.tasks ==> IsTerminal(store.tasks[id].status) || store.tasks[id].cancelRequested
    ensures id in old(store.tasks) ==>
              var was := old(store.tasks)[id];
              match was.status
              case Queued =>
                && r == Answer(Cancelled, false)
                && store.tasks[id] == was.(status := Cancelled, failureReason := Some(UserCancelled))
                && |store.log| == |old(store.log)| + 1 && store.log[..|old(store.log)|] == old(store.log)
                && bus.published == old(bus.published) + [store.log[|old(store.log)|]]
                && store.log[|old(store.log)|] == Event(|store.log|, id, 0, JobFailed, CANCEL_PAYLOAD)
              case Running =>
                && r == Answer(Running, true) && store.tasks[id] == was.(cancelRequested := true)
                && store.log == old(store.log) && bus.published == old(bus.published)
              case _ =>
                && r == Answer(was.status, false) && store.View() == old(store.View())
                && bus.published == old(bus.published)
  {
    if id !in store.tasks {
      return NotFound;
    }
    var t := store.tasks[id];
    if IsTerminal(t.status) {
      return Answer(t.status, false);
    }
    var e := store.CancelQueued(id);
    if e.Some? {
      bus.PublishEvent(e.value);
      return Answer(Cancelled, false);
    }
    var _ := store.RequestCancel(id);
    return Answer(t.status, true);
  }

  /** What follows the repair pass: with a free slot, the oldest entry leaves the queue;
      it is claimed under a new lease exactly when it had no lease and its task can be
      claimed; otherwise no row and no lease changes, whatever the entry was. */
  ghost predicate Polled(db: Db, queue: seq<TaskId>, leases: map<TaskId, Token>, self: WorkerId, cap: int, token: Token,
                         t: Option<Task>, db': Db, queue': seq<TaskId>, leases': map<TaskId, Token>)
  {
    if |leases| >= cap || queue == [] then
      t == None && db' == db && queue' == queue && leases' == leases
    else
      var id := queue[|queue| - 1];
      && queue' == queue[..|queue| - 1]
      && (if id !in leases && Claim(db, id, self).1.Some?
          then (db', t) == Claim(db, id, self) && leases' == leases[id := token]
          else t == None && db' == db && leases' == leases)
  }

  method TakeNext(store: TaskStore, bus: QueueBus, self: WorkerId, cap: int, token: Token) returns (t: Option<Task>)
    requires store.Valid()
    modifies store, bus
    ensures store.Valid()
    ensures Polled(old(store.View()), old(bus.queue), old(bus.leases), self, cap, token,
                   t, store.View(), bus.queue, bus.leases)
    ensures bus.published == old(bus.published)
  {
    t := None;
    var active := bus.ActiveLeases();
    if active >= cap {
      return;
    }
    var id := bus.Dequeue();
    if id.None? {
      return;
    }
    var free := bus.AcquireLease(id.value, token);
    if !free {
      return;
    }
    t := store.Claim(id.value, self);
    if t.None? {
      bus.ReleaseLease(id.value, token);
      assert bus.leases == old(bus.leases);
    }
  }

  /** `poll_once` up to the claim, with the state that its repair pass leaves. */
  method PollOnce(store: TaskStore, bus: QueueBus, self: WorkerId, cap: int, token: Token)
    returns (t: Option<Task>, ghost mended: Db, ghost lined: seq<TaskId>, ghost stats: Stats)
    requires store.Valid()
    modifies store, bus
    ensures store.Valid()
    ensures Pass(old(store.View()), old(bus.queue), old(bus.leases), mended, lined, stats)
    ensures Polled(mended, lined, old(bus.leases), self, cap, token, t, store.View(), bus.queue, bus.leases)
  {
    stats := Reconcile.Reconcile(store, bus);
    mended, lined := store.View(), bus.queue;
    t := TakeNext(store, bus, self, cap, token);
  }

  /** A queued task is in the queue that the repair pass of a poll leaves, so a poll with
      a free slot finds an entry as long as any task is queued. */
  lemma PollFindsWork(db: Db, queue: seq<TaskId>, leases: map<TaskId, Token>, mended: Db, lined: seq<TaskId>,
                      stats: Stats, id: TaskId)
    requires Pass(db, queue, leases, mended, lined, stats)
    requires id in db.tasks && db.tasks[id].status == Queued
    ensures id in lined && id in mended.tasks && mended.tasks[id] == db.tasks[id]
  {
    PassRepairs(db, queue, leases, mended, lined, stats);
  }
}

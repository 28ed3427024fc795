/** The calls of core/store.py as functions on the whole database. One call is one
    SQLite transaction, so one function application is one atomic step. */
module Database {
  import opened Models

  /** `log[i]` is the row with AUTOINCREMENT id `i + 1`; rows are never deleted. */
  datatype Db = Db(tasks: map<TaskId, Task>, log: seq<Event>)

  const EMPTY := Db(map[], [])

  /** What the processes share. `published` records every PUBLISH. */
  datatype Shared = Shared(db: Db, queue: seq<TaskId>, leases: map<TaskId, Token>, published: seq<Event>)

  predicate Keyed(tasks: map<TaskId, Task>) {
    forall id :: id in tasks ==> tasks[id].id == id
  }

  predicate Numbered(log: seq<Event>) {
    forall i :: 0 <= i < |log| ==> log[i].id == i + 1
  }

  datatype Creation = Created(task: Task) | Existing(task: Task) | IntegrityError

  function NewTask(id: TaskId, prompt: string, key: Option<string>, maxAttempts: int): Task {
    Task(id, prompt, Queued, 0, maxAttempts, None, None, None, map[], key, false)
  }

  /** The row that already carries this key, if there is one. */
  predicate HoldsKey(db: Db, id: TaskId, key: string) {
    id in db.tasks && db.tasks[id].idempotencyKey == Some(key)
  }

  ghost predicate KeyTaken(db: Db, key: Option<string>) {
    key.Some? && exists id :: HoldsKey(db, id, key.value)
  }

  /** The UNIQUE column: a key names at most one task. */
  ghost predicate UniqueKeys(db: Db) {
    forall a, b, k :: HoldsKey(db, a, k) && HoldsKey(db, b, k) ==> a == b
  }

  /** `create_task`: `id` is the fresh uuid. The lookup is skipped for an absent and
      for an empty key, but an empty key is still stored in the UNIQUE column. */
  ghost function Create(db: Db, id: TaskId, prompt: string, key: Option<string>, maxAttempts: int)
    : (r: (Db, Creation))
  {
    if key.Some? && key.value != "" && KeyTaken(db, key) then
      var row :| HoldsKey(db, row, key.value);
      (db, Existing(db.tasks[row]))
    else if id in db.tasks || KeyTaken(db, key) then
      (db, IntegrityError)
    else
      var t := NewTask(id, prompt, key, maxAttempts);
      (db.(tasks := db.tasks[id := t]), Created(t))
  }

  function Claim(db: Db, id: TaskId, worker: WorkerId): (Db, Option<Task>) {
    if id in db.tasks && db.tasks[id].status == Queued && db.tasks[id].attempt < db.tasks[id].maxAttempts then
      var t := db.tasks[id];
      var t' := t.(status := Running, attempt := t.attempt + 1, workerId := Some(worker));
      (db.(tasks := db.tasks[id := t']), Some(t'))
    else
      (db, None)
  }

  function NextEvent(log: seq<Event>, id: TaskId, attempt: nat, kind: EventKind, payload: Payload): Event {
    Event(|log| + 1, id, attempt, kind, payload)
  }

  function Append(db: Db, id: TaskId, attempt: nat, kind: EventKind, payload: Payload): (Db, Event) {
    var e := NextEvent(db.log, id, attempt, kind, payload);
    (db.(log := db.log + [e]), e)
  }

  /** The guard shared by `finish`, `requeue` and `fail_exhausted`. */
  predicate RunsAttempt(db: Db, id: TaskId, attempt: nat) {
    id in db.tasks && db.tasks[id].status == Running && db.tasks[id].attempt == attempt
  }

  function EndKind(status: Status): EventKind {
    if status == Succeeded then JobCompleted else JobFailed
  }

  /** What a worker reports at the end of an attempt. */
  datatype Report = Report(status: Status, reason: Option<Reason>, summary: Option<string>,
                           usage: Option<Usage>, artifacts: Option<seq<string>>)

  /** An empty summary or an empty usage object is falsy and stays out of the payload. */
  function ReportPayload(r: Report): Payload {
    End(r.status, r.reason,
        if r.summary == Some("") then None else r.summary,
        if r.usage == Some(map[]) then None else r.usage,
        r.artifacts)
  }

  function Finish(db: Db, id: TaskId, attempt: nat, r: Report): (Db, Option<Event>) {
    if RunsAttempt(db, id, attempt) then
      var t := db.tasks[id].(status := r.status, failureReason := r.reason, resultSummary := r.summary);
      var (db', e) := Append(db.(tasks := db.tasks[id := t]), id, attempt, EndKind(r.status), ReportPayload(r));
      (db', Some(e))
    else
      (db, None)
  }

  function Requeue(db: Db, id: TaskId, attempt: nat): (Db, bool) {
    if RunsAttempt(db, id, attempt) then
      (db.(tasks := db.tasks[id := db.tasks[id].(status := Queued, workerId := None)]), true)
    else
      (db, false)
  }

  const RETRIES_PAYLOAD := End(Failed, Some(RetriesExhausted), None, None, None)
  const CANCEL_PAYLOAD := End(Cancelled, Some(UserCancelled), None, None, None)

  function FailExhausted(db: Db, id: TaskId, attempt: nat): (Db, Option<Event>) {
    if RunsAttempt(db, id, attempt) then
      var t := db.tasks[id].(status := Failed, failureReason := Some(RetriesExhausted));
      var (db', e) := Append(db.(tasks := db.tasks[id := t]), id, attempt, JobFailed, RETRIES_PAYLOAD);
      (db', Some(e))
    else
      (db, None)
  }

  function CancelQueued(db: Db, id: TaskId): (Db, Option<Event>) {
    if id in db.tasks && db.tasks[id].status == Queued then
      var t := db.tasks[id].(status := Cancelled, failureReason := Some(UserCancelled));
      var (db', e) := Append(db.(tasks := db.tasks[id := t]), id, 0, JobFailed, CANCEL_PAYLOAD);
      (db', Some(e))
    else
      (db, None)
  }

  function RequestCancel(db: Db, id: TaskId): (Db, bool) {
    if id in db.tasks && !IsTerminal(db.tasks[id].status) then
      (db.(tasks := db.tasks[id := db.tasks[id].(cancelRequested := true)]), true)
    else
      (db, false)
  }

  function AddTokens(total: Usage, more: Usage): Usage {
    map k | k in total.Keys + more.Keys :: Tokens(total, k) + Tokens(more, k)
  }

  /** `add_usage`; `false` stands for the exception raised when the row is missing. */
  function AddUsage(db: Db, id: TaskId, usage: Usage): (Db, bool) {
    if id in db.tasks then
      var t := db.tasks[id];
      (db.(tasks := db.tasks[id := t.(usage := AddTokens(t.usage, usage))]), true)
    else
      (db, false)
  }

  /** `events_after`: the task's rows above `after`, in id order. */
  function EventsAfter(log: seq<Event>, id: TaskId, after: int): (rows: seq<Event>)
    ensures forall e :: e in rows <==> e in log && e.taskId == id && e.id > after
  {
    if log == [] then [] else
      var rest := EventsAfter(log[..|log| - 1], id, after);
      var e := log[|log| - 1];
      assert log == log[..|log| - 1] + [e];
      if e.taskId == id && e.id > after then rest + [e] else rest
  }

  function RowIds(rows: seq<Task>): seq<TaskId> {
    seq(|rows|, i requires 0 <= i < |rows| => rows[i].id)
  }

  function WithStatus(tasks: map<TaskId, Task>, status: Status): set<TaskId> {
    set id | id in tasks && tasks[id].status == status
  }

  /** `tasks_with_status` promises each row exactly once but no order. */
  predicate Lists(rows: seq<Task>, tasks: map<TaskId, Task>, status: Status) {
    && (forall i :: 0 <= i < |rows| ==> rows[i].id in tasks && tasks[rows[i].id] == rows[i])
    && multiset(RowIds(rows)) == multiset(WithStatus(tasks, status))
  }
}

/** core/store.py: the task table and the append-only event log, updated in place.
    Every method is proved to do what the function of the same name says. */
module Store {
  import opened Models
  import opened Database

  class TaskStore {
    var tasks: map<TaskId, Task>
    var log: seq<Event>

    ghost predicate Valid()
      reads this
    {
      Keyed(tasks) && Numbered(log)
    }

    ghost function View(): Db
      reads this
    {
      Db(tasks, log)
    }

    constructor ()
      ensures Valid() && View() == EMPTY
    {
      tasks, log := map[], [];
    }

    method CreateTask(id: TaskId, prompt: string, key: Option<string>, maxAttempts: int) returns (r: Creation)
      requires Valid()
      requires UniqueKeys(View())
      modifies this
      ensures Valid()
      ensures (View(), r) == Create(old(View()), id, prompt, key, maxAttempts)
    {
      if key.Some? && key.value != "" {
        var found := FindKey(key.value);
        if found.Some? {
          return Existing(found.value);
        }
      }
      var clash := None;
      if key.Some? {
        clash := FindKey(key.value);
      }
      if id in tasks || clash.Some? {
        return IntegrityError;
      }
      var t := NewTask(id, prompt, key, maxAttempts);
      tasks := tasks[id := t];
      return Created(t);
    }

    /** `SELECT * FROM tasks WHERE idempotency_key=?`. */
    method FindKey(key: string) returns (found: Option<Task>)
      requires Valid()
      ensures found.Some? ==> HoldsKey(View(), found.value.id, key) && found.value == tasks[found.value.id]
      ensures found.None? ==> !KeyTaken(View(), Some(key))
    {
      var todo := tasks.Keys;
      while todo != {}
        invariant todo <= tasks.Keys
        invariant forall id :: id in tasks.Keys - todo ==> tasks[id].idempotencyKey != Some(key)
        decreases todo
      {
        var id :| id in todo;
        if tasks[id].idempotencyKey == Some(key) {
          return Some(tasks[id]);
        }
        todo := todo - {id};
      }
      return None;
    }

    method Claim(id: TaskId, worker: WorkerId) returns (r: Option<Task>)
      requires Valid()
      modifies this`tasks
      ensures Valid()
      ensures (View(), r) == Database.Claim(old(View()), id, worker)
    {
      if id !in tasks || tasks[id].status != Queued || tasks[id].attempt >= tasks[id].maxAttempts {
        return None;
      }
      var t := tasks[id];
      tasks := tasks[id := t.(status := Running, attempt := t.attempt + 1, workerId := Some(worker))];
      return Some(tasks[id]);
    }

    method AppendEvent(id: TaskId, attempt: nat, kind: EventKind, payload: Payload) returns (e: Event)
      requires Valid()
      modifies this`log
      ensures Valid()
      ensures (View(), e) == Append(old(View()), id, attempt, kind, payload)
    {
      e := Event(|log| + 1, id, attempt, kind, payload);
      log := log + [e];
    }

    /** The source asserts that the status is terminal. */
    method Finish(id: TaskId, attempt: nat, report: Report) returns (r: Option<Event>)
      requires Valid()
      requires IsTerminal(report.status)
      modifies this
      ensures Valid()
      ensures (View(), r) == Database.Finish(old(View()), id, attempt, report)
    {
      if id !in tasks || tasks[id].status != Running || tasks[id].attempt != attempt {
        return None;
      }
      tasks := tasks[id := tasks[id].(status := report.status, failureReason := report.reason,
                                      resultSummary := report.summary)];
      var kind := if report.status == Succeeded then JobCompleted else JobFailed;
      var e := AppendEvent(id, attempt, kind, ReportPayload(report));
      return Some(e);
    }

    method Requeue(id: TaskId, attempt: nat) returns (ok: bool)
      requires Valid()
      modifies this`tasks
      ensures Valid()
      ensures (View(), ok) == Database.Requeue(old(View()), id, attempt)
    {
      ok := id in tasks && tasks[id].status == Running && tasks[id].attempt == attempt;
      if ok {
        tasks := tasks[id := tasks[id].(status := Queued, workerId := None)];
      }
    }

    method FailExhausted(id: TaskId, attempt: nat) returns (r: Option<Event>)
      requires Valid()
      modifies this
      ensures Valid()
      ensures (View(), r) == Database.FailExhausted(old(View()), id, attempt)
    {
      if id !in tasks || tasks[id].status != Running || tasks[id].attempt != attempt {
        return None;
      }
      tasks := tasks[id := tasks[id].(status := Failed, failureReason := Some(RetriesExhausted))];
      var e := AppendEvent(id, attempt, JobFailed, RETRIES_PAYLOAD);
      return Some(e);
    }

    method CancelQueued(id: TaskId) returns (r: Option<Event>)
      requires Valid()
      modifies this
      ensures Valid()
      ensures (View(), r) == Database.CancelQueued(old(View()), id)
    {
      if id !in tasks || tasks[id].status != Queued {
        return None;
      }
      tasks := tasks[id := tasks[id].(status := Cancelled, failureReason := Some(UserCancelled))];
      var e := AppendEvent(id, 0, JobFailed, CANCEL_PAYLOAD);
      return Some(e);
    }

    method RequestCancel(id: TaskId) returns (ok: bool)
      requires Valid()
      modifies this`tasks
      ensures Valid()
      ensures (View(), ok) == Database.RequestCancel(old(View()), id)
    {
      ok := id in tasks && !IsTerminal(tasks[id].status);
      if ok {
        tasks := tasks[id := tasks[id].(cancelRequested := true)];
      }
    }

    method AddUsage(id: TaskId, usage: Usage) returns (ok: bool)
      requires Valid()
      modifies this`tasks
      ensures Valid()
      ensures (View(), ok) == Database.AddUsage(old(View()), id, usage)
    {
      if id !in tasks {
        return false;
      }
      var before := tasks[id].usage;
      var total := before;
      var todo := usage.Keys;
      while todo != {}
        invariant todo <= usage.Keys
        invariant total.Keys == before.Keys + (usage.Keys - todo)
        invariant forall k :: k in total ==>
                    total[k] == Tokens(before, k) + (if k in todo then 0 else Tokens(usage, k))
        decreases todo
      {
        var k :| k in todo;
        total := total[k := Tokens(total, k) + usage[k]];
        todo := todo - {k};
      }
      assert total == AddTokens(before, usage);
      tasks := tasks[id := tasks[id].(usage := total)];
      return true;
    }

    method EventsAfter(id: TaskId, after: int) returns (rows: seq<Event>)
      ensures rows == Database.EventsAfter(log, id, after)
    {
      rows := [];
      for i := 0 to |log|
        invariant rows == Database.EventsAfter(log[..i], id, after)
      {
        assert log[..i + 1][..i] == log[..i];
        if log[i].taskId == id && log[i].id > after {
          rows := rows + [log[i]];
        }
      }
      assert log[..|log|] == log;
    }

    method TasksWithStatus(status: Status) returns (rows: seq<Task>)
      requires Valid()
      ensures Lists(rows, tasks, status)
    {
      rows := [];
      var todo := WithStatus(tasks, status);
      ghost var done: set<TaskId> := {};
      while todo != {}
        invariant todo <= tasks.Keys && todo !! done && todo + done == WithStatus(tasks, status)
        invariant forall i :: 0 <= i < |rows| ==> rows[i].id in tasks && tasks[rows[i].id] == rows[i]
        invariant multiset(RowIds(rows)) == multiset(done)
        decreases todo
      {
        var id :| id in todo;
        assert RowIds(rows + [tasks[id]]) == RowIds(rows) + [id];
        rows, todo, done := rows + [tasks[id]], todo - {id}, done + {id};
      }
    }
  }
}

/** A pass of `reconcile` that no other process disturbs, made of the single steps of
    module System, does what module Reconcile promises of the method. */
module Undisturbed {
  import opened Models
  import opened Database
  import opened Reconcile
  import opened System
  import opened Blocks

  /** Where a worker stands while it is in `reconcile`. */
  predicate InPass(me: Worker) {
    me.Surveying? || me.Mending? || me.MendEnqueue? || me.MendPublish? || me.Scanned? || me.Repushing?
  }

  /** Both loops are over. */
  predicate PassOver(me: Worker) {
    me.Repushing? && me.todo == []
  }

  /** These steps of one worker, and no others, lead from here to there; it stays in the
      pass and does not die. */
  ghost predicate Alone(self: WorkerId, cap: int, sh: Shared, me: Worker, acts: seq<Action>, sh': Shared, me': Worker)
    decreases |acts|
  {
    if acts == [] then sh' == sh && me' == me
    else
      && WorkerCan(sh, me, acts[0]) && !acts[0].Crash?
      && var (sh1, me1) := WorkerMove(self, cap, sh, me, acts[0]);
         InPass(me1) && Alone(self, cap, sh1, me1, acts[1..], sh', me')
  }

  lemma {:induction false} AloneDoes(self: WorkerId, cap: int, sh: Shared, me: Worker, acts: seq<Action>,
                                     sh': Shared, me': Worker)
    requires Alone(self, cap, sh, me, acts, sh', me')
    ensures Does(self, cap, sh, me, acts, sh', me')
    decreases |acts|
  {
    if acts != [] {
      var (sh1, me1) := WorkerMove(self, cap, sh, me, acts[0]);
      AloneDoes(self, cap, sh1, me1, acts[1..], sh', me');
    }
  }

  /** Such steps are a run of the platform in which only this worker moves. */
  lemma AloneIsRun(cfg: Config, s: State, w: WorkerId, acts: seq<Action>, sh': Shared, me': Worker)
    requires w in s.workers && Alone(w, cfg.cap, s.sh, s.workers[w], acts, sh', me')
    ensures IsRun(cfg, s, WorkerSteps(w, acts))
    ensures Run(cfg, s, WorkerSteps(w, acts)) == Moved(s, w, sh', me')
  {
    AloneDoes(w, cfg.cap, s.sh, s.workers[w], acts, sh', me');
    DoesIsRun(cfg, s, w, acts, sh', me');
  }

  // ---------- phase 1 ----------

  /** The push or the publish that follows a successful write. */
  lemma AfterMending(self: WorkerId, cap: int, sh: Shared, t: Task, todo: seq<Task>, acts: seq<Action>,
                     sh': Shared, me': Worker)
    requires Alone(self, cap, sh, Mending(t, todo), acts, sh', me') && PassOver(me')
    requires RunsAttempt(sh.db, t.id, t.attempt) && t.id !in sh.leases
    ensures |acts| >= 2 && Alone(self, cap, Treated(sh, t), Surveying(todo), acts[2..], sh', me')
  {
    var (sh1, me1) := WorkerMove(self, cap, sh, Mending(t, todo), acts[0]);
    assert Alone(self, cap, sh1, me1, acts[1..], sh', me');
    assert WorkerMove(self, cap, sh1, me1, acts[1]) == (Treated(sh, t), Surveying(todo));
    assert acts[1..][1..] == acts[2..];
  }

  lemma TreatOne(self: WorkerId, cap: int, sh: Shared, todo: seq<Task>, acts: seq<Action>, sh': Shared, me': Worker)
    returns (rest: seq<Action>)
    requires todo != [] && PassOver(me') && Alone(self, cap, sh, Surveying(todo), acts, sh', me')
    ensures Alone(self, cap, Treated(sh, todo[0]), Surveying(todo[1..]), rest, sh', me')
  {
    var t := todo[0];
    rest := acts[1..];
    if t.id !in sh.leases {
      assert Alone(self, cap, sh, Mending(t, todo[1..]), rest, sh', me');
      if RunsAttempt(sh.db, t.id, t.attempt) {
        AfterMending(self, cap, sh, t, todo[1..], acts[1..], sh', me');
        rest := acts[3..];
      } else {
        rest := acts[2..];
      }
    }
  }

  lemma {:induction false} SurveyAlone(self: WorkerId, cap: int, sh0: Shared, sh: Shared, rows: seq<Task>, k: nat,
                                       p: Progress, acts: seq<Action>, sh': Shared, me': Worker)
    returns (end: Shared, q: Progress, rest: seq<Action>)
    requires Halfway(sh0, sh, rows, k, p) && Keyed(sh0.db.tasks)
    requires Alone(self, cap, sh, Surveying(rows[k..]), acts, sh', me') && PassOver(me')
    ensures Halfway(sh0, end, rows, |rows|, q) && Alone(self, cap, end, Surveying([]), rest, sh', me')
    decreases |rows| - k
  {
    if k == |rows| {
      end, q, rest := sh, p, acts;
    } else {
      var p1 := HalfwayNext(sh0, sh, rows, k, p);
      var acts1 := TreatOne(self, cap, sh, rows[k..], acts, sh', me');
      assert rows[k..][1..] == rows[k + 1..];
      end, q, rest := SurveyAlone(self, cap, sh0, Treated(sh, rows[k]), rows, k + 1, p1, acts1, sh', me');
    }
  }

  // ---------- phase 2 ----------

  function Repushed(sh: Shared, inRedis: set<TaskId>, id: TaskId): Shared {
    if id in inRedis then sh else sh.(queue := [id] + sh.queue)
  }

  lemma RepushOne(self: WorkerId, cap: int, sh: Shared, inRedis: set<TaskId>, todo: seq<Task>, acts: seq<Action>,
                  sh': Shared, me': Worker)
    requires todo != [] && Alone(self, cap, sh, Repushing(inRedis, todo), acts, sh', me') && PassOver(me')
    ensures acts != []
    ensures Alone(self, cap, Repushed(sh, inRedis, todo[0].id), Repushing(inRedis, todo[1..]), acts[1..], sh', me')
  {
  }

  lemma RepushOver(self: WorkerId, cap: int, sh: Shared, inRedis: set<TaskId>, acts: seq<Action>, sh': Shared,
                   me': Worker)
    requires Alone(self, cap, sh, Repushing(inRedis, []), acts, sh', me')
    ensures sh' == sh
  {
  }

  lemma {:induction false} RepushAlone(self: WorkerId, cap: int, queue0: seq<TaskId>, sh: Shared, inRedis: set<TaskId>,
                                       rows: seq<Task>, k: nat, done: set<TaskId>, front: seq<TaskId>,
                                       acts: seq<Action>, sh': Shared, me': Worker) returns (front': seq<TaskId>)
    requires HalfPushed(sh.db, queue0, rows, k, done, front) && sh.queue == front + queue0
    requires forall id :: id in inRedis <==> id in queue0
    requires Alone(self, cap, sh, Repushing(inRedis, rows[k..]), acts, sh', me') && PassOver(me')
    ensures sh' == sh.(queue := front' + queue0)
    ensures multiset(front') == multiset(Unlisted(sh.db.tasks, queue0))
    decreases |rows| - k
  {
    if k == |rows| {
      VisitedAll(rows, sh.db.tasks, Queued, done, Unlisted(sh.db.tasks, queue0));
      RepushOver(self, cap, sh, inRedis, acts, sh', me');
      front' := front;
    } else {
      var id := rows[k].id;
      var front1 := if id in inRedis then front else [id] + front;
      HalfPushedNext(sh.db, queue0, inRedis, rows, k, done, front);
      Associative([id], front, queue0);
      RepushOne(self, cap, sh, inRedis, rows[k..], acts, sh', me');
      assert rows[k..][1..] == rows[k + 1..];
      front' := RepushAlone(self, cap, queue0, Repushed(sh, inRedis, id), inRedis, rows, k + 1, done + {id}, front1,
                            acts[1..], sh', me');
    }
  }

  // ---------- the pass ----------

  /** From any shared state, an undisturbed pass does what is promised: exactly the
      orphans are requeued or failed, exactly the requeued and the lost tasks are pushed,
      exactly the terminal events are published, and no lease is touched. */
  lemma UndisturbedPass(self: WorkerId, cap: int, sh: Shared, acts: seq<Action>, sh': Shared, me': Worker)
    returns (stats: Stats)
    requires Keyed(sh.db.tasks) && Alone(self, cap, sh, Idle, acts, sh', me') && PassOver(me')
    ensures Pass(sh.db, sh.queue, sh.leases, sh'.db, sh'.queue, stats)
    ensures sh'.leases == sh.leases
    ensures sh'.published == sh.published + sh'.db.log[|sh.db.log|..]
  {
    var rows := acts[0].rows;
    var start := Progress({}, {}, {}, [], []);
    assert rows[0..] == rows;
    assert Halfway(sh, sh, rows, 0, start) by { StartHalfway(sh, rows); }
    var end, p, rest := SurveyAlone(self, cap, sh, sh, rows, 0, start, acts[1..], sh', me');
    HalfwayOver(sh, end, rows, p);
    var front := SecondHalf(self, cap, end, rest, sh', me');
    stats := Stats(|p.got|, |p.dead|, |Unlisted(end.db.tasks, end.queue)|);
    PassMade(sh.db, sh.queue, sh.leases, end.db, p.front, front, stats);
  }

  lemma SecondHalf(self: WorkerId, cap: int, sh: Shared, acts: seq<Action>, sh': Shared, me': Worker)
    returns (front: seq<TaskId>)
    requires Alone(self, cap, sh, Surveying([]), acts, sh', me') && PassOver(me')
    ensures sh' == sh.(queue := front + sh.queue)
    ensures multiset(front) == multiset(Unlisted(sh.db.tasks, sh.queue))
  {
    var inRedis := set id | id in sh.queue;
    assert Alone(self, cap, sh, Scanned(inRedis), acts[1..], sh', me');
    var rows := acts[1].rows;
    assert acts[1..][1..] == acts[2..];
    assert rows[0..] == rows;
    front := RepushAlone(self, cap, sh.queue, sh, inRedis, rows, 0, {}, [], acts[2..], sh', me');
  }

  // ---------- a pass can always be made ----------

  /** One step ahead of the others. */
  lemma AloneFirst(self: WorkerId, cap: int, sh: Shared, me: Worker, a: Action, more: seq<Action>, sh': Shared,
                   me': Worker)
    requires WorkerCan(sh, me, a) && !a.Crash?
    requires var (sh1, me1) := WorkerMove(self, cap, sh, me, a);
             InPass(me1) && Alone(self, cap, sh1, me1, more, sh', me')
    ensures Alone(self, cap, sh, me, [a] + more, sh', me')
  {
    assert ([a] + more)[1..] == more;
  }

  lemma ListExists(tasks: map<TaskId, Task>, status: Status) returns (rows: seq<Task>)
    requires Keyed(tasks)
    ensures Lists(rows, tasks, status)
  {
    rows := ListSome(tasks, WithStatus(tasks, status));
  }

  lemma {:induction false} ListSome(tasks: map<TaskId, Task>, ids: set<TaskId>) returns (rows: seq<Task>)
    requires Keyed(tasks) && ids <= tasks.Keys
    ensures forall i :: 0 <= i < |rows| ==> rows[i].id in tasks && tasks[rows[i].id] == rows[i]
    ensures multiset(RowIds(rows)) == multiset(ids)
  {
    rows := [];
    if ids != {} {
      var id :| id in ids;
      var rest := ListSome(tasks, ids - {id});
      rows := [tasks[id]] + rest;
      assert RowIds(rows) == [id] + RowIds(rest);
      assert ids - {id} + {id} == ids;
    }
  }

  lemma {:induction false} RepushCanEnd(self: WorkerId, cap: int, sh: Shared, inRedis: set<TaskId>, todo: seq<Task>)
    returns (acts: seq<Action>, sh': Shared)
    ensures Alone(self, cap, sh, Repushing(inRedis, todo), acts, sh', Repushing(inRedis, []))
    decreases |todo|
  {
    acts, sh' := [], sh;
    if todo != [] {
      var more;
      more, sh' := RepushCanEnd(self, cap, Repushed(sh, inRedis, todo[0].id), inRedis, todo[1..]);
      AloneFirst(self, cap, sh, Repushing(inRedis, todo), Advance, more, sh', Repushing(inRedis, []));
      acts := [Advance] + more;
    }
  }

  lemma SecondHalfCanEnd(self: WorkerId, cap: int, sh: Shared)
    returns (acts: seq<Action>, sh': Shared, inRedis: set<TaskId>)
    requires Keyed(sh.db.tasks)
    ensures Alone(self, cap, sh, Surveying([]), acts, sh', Repushing(inRedis, []))
  {
    inRedis := set id | id in sh.queue;
    var rows := ListExists(sh.db.tasks, Queued);
    var more;
    more, sh' := RepushCanEnd(self, cap, sh, inRedis, rows);
    AloneFirst(self, cap, sh, Scanned(inRedis), List(rows), more, sh', Repushing(inRedis, []));
    AloneFirst(self, cap, sh, Surveying([]), Advance, [List(rows)] + more, sh', Repushing(inRedis, []));
    acts := [Advance] + ([List(rows)] + more);
  }

  /** Mending takes one step or two, and leads back into the first loop. */
  lemma MendReturns(self: WorkerId, cap: int, sh: Shared, t: Task, todo: seq<Task>)
    ensures var (sh1, me1) := WorkerMove(self, cap, sh, Mending(t, todo), Advance);
            && (Keyed(sh.db.tasks) ==> Keyed(sh1.db.tasks))
            && (me1 == Surveying(todo)
                || (me1.MendEnqueue? && me1.todo == todo) || (me1.MendPublish? && me1.todo == todo))
  {
  }

  lemma MendGoesOn(self: WorkerId, cap: int, sh: Shared, me: Worker)
    requires me.MendEnqueue? || me.MendPublish?
    ensures WorkerMove(self, cap, sh, me, Advance).1 == Surveying(me.todo)
    ensures WorkerMove(self, cap, sh, me, Advance).0.db == sh.db
  {
  }

  lemma {:induction false} SurveyCanEnd(self: WorkerId, cap: int, sh: Shared, todo: seq<Task>)
    returns (acts: seq<Action>, sh': Shared, inRedis: set<TaskId>)
    requires Keyed(sh.db.tasks)
    ensures Alone(self, cap, sh, Surveying(todo), acts, sh', Repushing(inRedis, []))
    decreases |todo|
  {
    if todo == [] {
      acts, sh', inRedis := SecondHalfCanEnd(self, cap, sh);
    } else {
      var t, rest, more := todo[0], todo[1..], [];
      if t.id in sh.leases {
        more, sh', inRedis := SurveyCanEnd(self, cap, sh, rest);
      } else {
        MendReturns(self, cap, sh, t, rest);
        var (sh1, me1) := WorkerMove(self, cap, sh, Mending(t, rest), Advance);
        if me1.Surveying? {
          more, sh', inRedis := SurveyCanEnd(self, cap, sh1, rest);
        } else {
          MendGoesOn(self, cap, sh1, me1);
          more, sh', inRedis := SurveyCanEnd(self, cap, WorkerMove(self, cap, sh1, me1, Advance).0, rest);
          AloneFirst(self, cap, sh1, me1, Advance, more, sh', Repushing(inRedis, []));
          more := [Advance] + more;
        }
        AloneFirst(self, cap, sh, Mending(t, rest), Advance, more, sh', Repushing(inRedis, []));
        more := [Advance] + more;
      }
      AloneFirst(self, cap, sh, Surveying(todo), Advance, more, sh', Repushing(inRedis, []));
      acts := [Advance] + more;
    }
  }

  /** An undisturbed worker can always go through a whole pass. */
  lemma PassCanBeMade(self: WorkerId, cap: int, sh: Shared)
    returns (acts: seq<Action>, sh': Shared, inRedis: set<TaskId>)
    requires Keyed(sh.db.tasks)
    ensures Alone(self, cap, sh, Idle, acts, sh', Repushing(inRedis, []))
  {
    var rows := ListExists(sh.db.tasks, Running);
    acts, sh', inRedis := SurveyCanEnd(self, cap, sh, rows);
    AloneFirst(self, cap, sh, Idle, List(rows), acts, sh', Repushing(inRedis, []));
    acts := [List(rows)] + acts;
  }
}

/** What any sequence of store calls does to the database, whoever makes the calls,
    with whatever stale arguments: the status changes of a task, its terminal event,
    its idempotency key. */
module History {
  import opened Models
  import opened Database

  // ---------- calls ----------

  datatype Call =
    | DoCreate(id: TaskId, prompt: string, key: Option<string>, maxAttempts: int)
    | DoClaim(id: TaskId, worker: WorkerId)
    | DoAppend(id: TaskId, attempt: nat, kind: EventKind, payload: Payload)
    | DoFinish(id: TaskId, attempt: nat, report: Report)
    | DoRequeue(id: TaskId, attempt: nat)
    | DoFail(id: TaskId, attempt: nat)
    | DoCancelQueued(id: TaskId)
    | DoRequestCancel(id: TaskId)
    | DoAddUsage(id: TaskId, usage: Usage)

  ghost function Exec(db: Db, c: Call): Db {
    match c
    case DoCreate(id, prompt, key, maxAttempts) => Create(db, id, prompt, key, maxAttempts).0
    case DoClaim(id, worker) => Claim(db, id, worker).0
    case DoAppend(id, attempt, kind, payload) => Append(db, id, attempt, kind, payload).0
    case DoFinish(id, attempt, report) => Finish(db, id, attempt, report).0
    case DoRequeue(id, attempt) => Requeue(db, id, attempt).0
    case DoFail(id, attempt) => FailExhausted(db, id, attempt).0
    case DoCancelQueued(id) => CancelQueued(db, id).0
    case DoRequestCancel(id) => RequestCancel(db, id).0
    case DoAddUsage(id, usage) => AddUsage(db, id, usage).0
  }

  ghost function ExecAll(db: Db, calls: seq<Call>): Db
    decreases |calls|
  {
    if calls == [] then db else ExecAll(Exec(db, calls[0]), calls[1..])
  }

  /** What every caller respects: the source asserts it in `finish`, and only `finish`,
      `fail_exhausted` and `cancel_queued` write a terminal event. */
  predicate Proper(c: Call) {
    match c
    case DoAppend(_, _, kind, _) => !EndsJob(kind)
    case DoFinish(_, _, report) => IsTerminal(report.status)
    case _ => true
  }

  predicate AllProper(calls: seq<Call>) {
    forall i :: 0 <= i < |calls| ==> Proper(calls[i])
  }

  // ---------- the status changes of one task ----------

  datatype Change =
    | Claimed(attempt: nat)
    | Requeued(attempt: nat)
    | Finished(attempt: nat, status: Status)
    | Exhausted(attempt: nat)
    | Withdrawn

  /** The change that a call reports to its caller as successful, if it concerns `t`. */
  ghost function ChangeOf(db: Db, c: Call, t: TaskId): seq<Change> {
    match c
    case DoClaim(id, worker) =>
      var r := Claim(db, id, worker).1;
      if id == t && r.Some? then [Claimed(r.value.attempt)] else []
    case DoFinish(id, attempt, report) =>
      if id == t && Finish(db, id, attempt, report).1.Some? then [Finished(attempt, report.status)] else []
    case DoRequeue(id, attempt) =>
      if id == t && Requeue(db, id, attempt).1 then [Requeued(attempt)] else []
    case DoFail(id, attempt) =>
      if id == t && FailExhausted(db, id, attempt).1.Some? then [Exhausted(attempt)] else []
    case DoCancelQueued(id) =>
      if id == t && CancelQueued(db, id).1.Some? then [Withdrawn] else []
    case _ => []
  }

  ghost function Word(db: Db, calls: seq<Call>, t: TaskId): seq<Change>
    decreases |calls|
  {
    if calls == [] then [] else ChangeOf(db, calls[0], t) + Word(Exec(db, calls[0]), calls[1..], t)
  }

  /** The words a queued, and a running, task at attempt `a` can still write. */
  predicate FromQueued(w: seq<Change>, a: nat) {
    || w == []
    || w == [Withdrawn]
    || (w[0] == Claimed(a + 1) && FromRunning(w[1..], a + 1))
  }

  predicate FromRunning(w: seq<Change>, a: nat) {
    || w == []
    || w == [Exhausted(a)]
    || (|w| == 1 && w[0].Finished? && w[0].attempt == a && IsTerminal(w[0].status))
    || (w[0] == Requeued(a) && FromQueued(w[1..], a))
  }

  predicate FromRow(w: seq<Change>, t: Task) {
    match t.status
    case Queued => FromQueued(w, t.attempt)
    case Running => FromRunning(w, t.attempt)
    case _ => w == []
  }

  /** `(claim requeue)^k`, for the attempts after `a`. */
  function Retries(a: nat, k: nat): seq<Change>
    decreases k
  {
    if k == 0 then [] else [Claimed(a + 1), Requeued(a + 1)] + Retries(a + 1, k - 1)
  }

  /** The five ways a history can stand after its last requeue. */
  predicate LastLeg(w: seq<Change>, a: nat) {
    || w == []
    || w == [Withdrawn]
    || w == [Claimed(a + 1)]
    || w == [Claimed(a + 1), Exhausted(a + 1)]
    || (|w| == 2 && w[0] == Claimed(a + 1) && w[1].Finished? && w[1].attempt == a + 1 && IsTerminal(w[1].status))
  }

  lemma {:induction false} Shape(w: seq<Change>, a: nat) returns (k: nat)
    requires FromQueued(w, a)
    ensures 2 * k <= |w| && w[..2 * k] == Retries(a, k) && LastLeg(w[2 * k..], a + k)
    decreases |w|
  {
    if |w| >= 2 && w[1] == Requeued(a + 1) {
      var rest := w[2..];
      assert w[1..][1..] == rest;
      var j := Shape(rest, a + 1);
      k := j + 1;
      assert w[..2 * k] == [w[0], w[1]] + rest[..2 * j];
      assert w[2 * k..] == rest[2 * j..];
    } else {
      k := 0;
      if |w| >= 1 && w != [Withdrawn] {
        assert w == [w[0]] + w[1..];
      }
    }
  }

  /** At most one change, and the row moves exactly as it says. */
  predicate MovesRow(w: seq<Change>, before: Task, after: Task) {
    |w| <= 1 && (w == [] ==> after.status == before.status && after.attempt == before.attempt)
    && after.maxAttempts == before.maxAttempts
    && (w != [] ==>
          match w[0]
          case Claimed(a) => before.status == Queued && after.status == Running
                             && a == after.attempt == before.attempt + 1 <= before.maxAttempts
          case Requeued(a) => before.status == Running && after.status == Queued
                              && a == before.attempt == after.attempt
          case Finished(a, s) => before.status == Running && after.status == s && IsTerminal(s)
                                 && a == before.attempt == after.attempt
          case Exhausted(a) => before.status == Running && after.status == Failed
                               && a == before.attempt == after.attempt
          case Withdrawn => before.status == Queued && after.status == Cancelled
                            && before.attempt == after.attempt)
  }

  /** One call: the row moves exactly as the reported change says. */
  lemma ChangeMovesRow(db: Db, c: Call, t: TaskId)
    requires Proper(c) && t in db.tasks
    ensures t in Exec(db, c).tasks && MovesRow(ChangeOf(db, c, t), db.tasks[t], Exec(db, c).tasks[t])
  {
  }

  /** A task that does not exist yet reports no change and starts out queued at attempt 0. */
  lemma BeforeCreation(db: Db, c: Call, t: TaskId)
    requires Keyed(db.tasks) && t !in db.tasks
    ensures ChangeOf(db, c, t) == []
    ensures t in Exec(db, c).tasks ==> Exec(db, c).tasks[t].status == Queued && Exec(db, c).tasks[t].attempt == 0
    ensures Keyed(Exec(db, c).tasks)
  {
  }

  lemma StaysKeyed(db: Db, c: Call)
    requires Keyed(db.tasks)
    ensures Keyed(Exec(db, c).tasks)
  {
  }

  function StatusAfter(w: seq<Change>, s: Status): Status {
    if w == [] then s else
      match w[|w| - 1]
      case Claimed(_) => Running
      case Requeued(_) => Queued
      case Finished(_, status) => status
      case Exhausted(_) => Failed
      case Withdrawn => Cancelled
  }

  function Claims(w: seq<Change>): nat {
    if w == [] then 0 else (if w[0].Claimed? then 1 else 0) + Claims(w[1..])
  }

  /** The word accounts for what became of the row. */
  predicate Explains(w: seq<Change>, before: Task, after: Task) {
    && FromRow(w, before) && after.status == StatusAfter(w, before.status)
    && after.attempt == before.attempt + Claims(w) && after.maxAttempts == before.maxAttempts
  }

  lemma ExplainsFirst(w: seq<Change>, before: Task, middle: Task, rest: seq<Change>, after: Task)
    requires MovesRow(w, before, middle) && Explains(rest, middle, after)
    ensures Explains(w + rest, before, after)
  {
    if w == [] {
      assert w + rest == rest;
    } else {
      assert (w + rest)[1..] == rest;
      assert (w + rest)[0] == w[0];
    }
  }

  /** Over any calls, a task's successful status changes form a word of the language,
      nothing ever leaves a terminal status, and the word accounts for the row: the
      attempt number counts the claims and the status is the one the last change set. */
  lemma {:induction false} WordIsLegal(db: Db, calls: seq<Call>, t: TaskId)
    requires AllProper(calls) && t in db.tasks
    ensures t in ExecAll(db, calls).tasks
    ensures Explains(Word(db, calls, t), db.tasks[t], ExecAll(db, calls).tasks[t])
    decreases |calls|
  {
    if calls != [] {
      var db' := Exec(db, calls[0]);
      ChangeMovesRow(db, calls[0], t);
      WordIsLegal(db', calls[1..], t);
      ExplainsFirst(ChangeOf(db, calls[0], t), db.tasks[t], db'.tasks[t], Word(db', calls[1..], t),
                    ExecAll(db', calls[1..]).tasks[t]);
    }
  }

  /** The same from the empty database, for every task id there will ever be. */
  lemma {:induction false} WholeHistory(db: Db, calls: seq<Call>, t: TaskId)
    requires AllProper(calls) && Keyed(db.tasks) && t !in db.tasks
    ensures FromQueued(Word(db, calls, t), 0)
    ensures t in ExecAll(db, calls).tasks ==>
              && ExecAll(db, calls).tasks[t].status == StatusAfter(Word(db, calls, t), Queued)
              && ExecAll(db, calls).tasks[t].attempt == Claims(Word(db, calls, t))
    decreases |calls|
  {
    if calls != [] {
      var db' := Exec(db, calls[0]);
      BeforeCreation(db, calls[0], t);
      if t in db'.tasks {
        WordIsLegal(db', calls[1..], t);
      } else {
        WholeHistory(db', calls[1..], t);
      }
      assert [] + Word(db', calls[1..], t) == Word(db', calls[1..], t);
    }
  }

  predicate IsExit(c: Change) {
    c.Finished? || c.Requeued? || c.Exhausted?
  }

  predicate IsNumbered(c: Change) {
    !c.Withdrawn?
  }

  predicate SameSide(c: Change, d: Change) {
    (c.Claimed? && d.Claimed?) || (IsExit(c) && IsExit(d))
  }

  /** No ABA: along a history, every claim gets a larger attempt number than all claims
      before it, and every attempt number is left at most once. */
  lemma {:induction false} AttemptsNeverReturn(w: seq<Change>, a: nat, queued: bool)
    requires if queued then FromQueued(w, a) else FromRunning(w, a)
    ensures forall i :: 0 <= i < |w| && IsNumbered(w[i]) ==> w[i].attempt >= a && (w[i].Claimed? ==> w[i].attempt > a)
    ensures queued ==> forall i :: 0 <= i < |w| && IsNumbered(w[i]) ==> w[i].attempt > a
    ensures forall i, j :: 0 <= i < j < |w| && SameSide(w[i], w[j]) ==> w[i].attempt < w[j].attempt
    decreases |w|
  {
    if |w| > 1 {
      AttemptsNeverReturn(w[1..], if queued then a + 1 else a, !queued);
      assert w == [w[0]] + w[1..];
    }
  }

  /** The whole history of a task: (claim requeue)* and one last leg, with attempt numbers
      that only rise, and a row that the history accounts for. */
  lemma HistoryOf(calls: seq<Call>, t: TaskId) returns (retries: nat)
    requires AllProper(calls)
    ensures var w := Word(EMPTY, calls, t);
            && 2 * retries <= |w| && w[..2 * retries] == Retries(0, retries) && LastLeg(w[2 * retries..], retries)
            && (forall i, j :: 0 <= i < j < |w| && SameSide(w[i], w[j]) ==> w[i].attempt < w[j].attempt)
            && var tasks := ExecAll(EMPTY, calls).tasks;
               t in tasks ==> tasks[t].status == StatusAfter(w, Queued) && tasks[t].attempt == Claims(w)
  {
    WholeHistory(EMPTY, calls, t);
    var w := Word(EMPTY, calls, t);
    retries := Shape(w, 0);
    AttemptsNeverReturn(w, 0, true);
  }

  // ---------- the termination measure ----------

  function Rank(t: Task): int {
    match t.status
    case Running => 2 * (t.maxAttempts - t.attempt) + 2
    case Queued => 2 * (t.maxAttempts - t.attempt) + 1
    case _ => 0
  }

  /** What `reconcile` makes true of the calls it makes, stale snapshot or not: it gives an
      attempt back only if another is left and fails it only if none is; and no worker
      reports that the retries are exhausted. */
  predicate Guarded(db: Db, c: Call) {
    && (c.DoRequeue? && RunsAttempt(db, c.id, c.attempt) ==> c.attempt < db.tasks[c.id].maxAttempts)
    && (c.DoFail? && RunsAttempt(db, c.id, c.attempt) ==> c.attempt >= db.tasks[c.id].maxAttempts)
    && (c.DoFinish? ==> c.report.reason != Some(RetriesExhausted))
  }

  ghost predicate AllGuarded(db: Db, calls: seq<Call>)
    decreases |calls|
  {
    calls != [] ==> Guarded(db, calls[0]) && AllGuarded(Exec(db, calls[0]), calls[1..])
  }

  /** A queued task can be claimed, a running one is within its attempts. A task created
      with no attempts at all is the one exception: it waits for a cancel. */
  predicate Claimable(t: Task) {
    && (t.status == Queued ==> t.attempt < t.maxAttempts || (t.maxAttempts <= 0 && t.attempt == 0))
    && (t.status == Running ==> 1 <= t.attempt <= t.maxAttempts)
  }

  lemma GuardedKeepsClaimable(db: Db, c: Call, t: TaskId)
    requires Proper(c) && Guarded(db, c) && t in db.tasks && Claimable(db.tasks[t])
    ensures t in Exec(db, c).tasks && Claimable(Exec(db, c).tasks[t])
  {
    ChangeMovesRow(db, c, t);
  }

  /** Every status change strictly lowers the rank, everything else leaves it alone. */
  lemma RankFalls(db: Db, c: Call, t: TaskId)
    requires Proper(c) && Guarded(db, c) && t in db.tasks && Claimable(db.tasks[t]) && db.tasks[t].maxAttempts >= 1
    ensures t in Exec(db, c).tasks
    ensures ChangeOf(db, c, t) == [] ==> Rank(Exec(db, c).tasks[t]) == Rank(db.tasks[t])
    ensures ChangeOf(db, c, t) != [] ==> 0 <= Rank(Exec(db, c).tasks[t]) < Rank(db.tasks[t])
    ensures ChangeOf(db, c, t) != [] && IsTerminal(Exec(db, c).tasks[t].status) ==> Rank(db.tasks[t]) >= 2
  {
    ChangeMovesRow(db, c, t);
  }

  /** So a task changes status at most `2 * max_attempts` times in any run. */
  lemma {:induction false} ChangesAreBounded(db: Db, calls: seq<Call>, t: TaskId)
    requires AllProper(calls) && AllGuarded(db, calls)
    requires t in db.tasks && Claimable(db.tasks[t]) && db.tasks[t].maxAttempts >= 1
    ensures |Word(db, calls, t)| <= if IsTerminal(db.tasks[t].status) then 0 else Rank(db.tasks[t]) - 1
    decreases |calls|
  {
    if calls != [] {
      ChangeMovesRow(db, calls[0], t);
      GuardedKeepsClaimable(db, calls[0], t);
      RankFalls(db, calls[0], t);
      ChangesAreBounded(Exec(db, calls[0]), calls[1..], t);
    }
  }

  // ---------- exhausted retries ----------

  /** A row that is not over has no reason yet. */
  predicate Reasoned(t: Task) {
    IsTerminal(t.status) || t.failureReason == None
  }

  predicate EndsExhausted(w: seq<Change>) {
    w != [] && w[|w| - 1].Exhausted?
  }

  lemma ExhaustStep(db: Db, c: Call, t: TaskId)
    requires Proper(c) && Guarded(db, c) && t in db.tasks && Claimable(db.tasks[t]) && Reasoned(db.tasks[t])
    ensures t in Exec(db, c).tasks && Reasoned(Exec(db, c).tasks[t])
    ensures ChangeOf(db, c, t) == [] ==> Exec(db, c).tasks[t].failureReason == db.tasks[t].failureReason
    ensures ChangeOf(db, c, t) != [] ==>
              var change := ChangeOf(db, c, t)[0];
              && (change.Exhausted? ==> change.attempt == db.tasks[t].maxAttempts)
              && (change.Exhausted? <==> Exec(db, c).tasks[t].failureReason == Some(RetriesExhausted))
  {
  }

  /** From a row on: retries are exhausted only by the last attempt, and the row says so
      exactly when that was the last change. */
  lemma {:induction false} ExhaustsAtMax(db: Db, calls: seq<Call>, t: TaskId)
    requires AllProper(calls) && AllGuarded(db, calls)
    requires t in db.tasks && Claimable(db.tasks[t]) && Reasoned(db.tasks[t])
    ensures t in ExecAll(db, calls).tasks && ExecAll(db, calls).tasks[t].maxAttempts == db.tasks[t].maxAttempts
    ensures var w := Word(db, calls, t);
            && (forall i :: 0 <= i < |w| && w[i].Exhausted? ==> w[i].attempt == db.tasks[t].maxAttempts)
            && (w == [] ==> ExecAll(db, calls).tasks[t].failureReason == db.tasks[t].failureReason)
            && (w != [] ==> (EndsExhausted(w) <==>
                             ExecAll(db, calls).tasks[t].failureReason == Some(RetriesExhausted)))
    decreases |calls|
  {
    if calls != [] {
      ChangeMovesRow(db, calls[0], t);
      GuardedKeepsClaimable(db, calls[0], t);
      ExhaustStep(db, calls[0], t);
      ExhaustsAtMax(Exec(db, calls[0]), calls[1..], t);
      ExhaustsFirst(ChangeOf(db, calls[0], t), Word(Exec(db, calls[0]), calls[1..], t), db.tasks[t].maxAttempts);
    }
  }

  lemma ExhaustsFirst(w: seq<Change>, rest: seq<Change>, max: int)
    requires |w| <= 1 && (w != [] && w[0].Exhausted? ==> w[0].attempt == max)
    requires forall i :: 0 <= i < |rest| && rest[i].Exhausted? ==> rest[i].attempt == max
    ensures forall i :: 0 <= i < |w + rest| && (w + rest)[i].Exhausted? ==> (w + rest)[i].attempt == max
    ensures EndsExhausted(w + rest) <==> if rest == [] then EndsExhausted(w) else EndsExhausted(rest)
  {
  }

  /** The same from before the task's creation. */
  lemma {:induction false} ExhaustsFromCreation(db: Db, calls: seq<Call>, t: TaskId)
    requires AllProper(calls) && AllGuarded(db, calls) && Keyed(db.tasks) && t !in db.tasks
    requires t in ExecAll(db, calls).tasks
    ensures var w, row := Word(db, calls, t), ExecAll(db, calls).tasks[t];
            && (forall i :: 0 <= i < |w| && w[i].Exhausted? ==> w[i].attempt == row.maxAttempts)
            && (EndsExhausted(w) <==> row.failureReason == Some(RetriesExhausted))
    decreases |calls|
  {
    if calls != [] {
      BeforeCreation(db, calls[0], t);
      assert [] + Word(Exec(db, calls[0]), calls[1..], t) == Word(Exec(db, calls[0]), calls[1..], t);
      if t in Exec(db, calls[0]).tasks {
        FreshRow(db, calls[0], t);
        ExhaustsAtMax(Exec(db, calls[0]), calls[1..], t);
      } else {
        ExhaustsFromCreation(Exec(db, calls[0]), calls[1..], t);
      }
    }
  }

  lemma FreshRow(db: Db, c: Call, t: TaskId)
    requires t !in db.tasks && t in Exec(db, c).tasks
    ensures var row := Exec(db, c).tasks[t]; Claimable(row) && row.failureReason == None
  {
  }

  /** The history of a task that used up all its `max` attempts. */
  function UsedUp(max: nat): seq<Change>
    requires max >= 1
  {
    Retries(0, max - 1) + [Claimed(max), Exhausted(max)]
  }

  lemma {:induction false} RetriesEnd(a: nat, k: nat)
    ensures |Retries(a, k)| == 2 * k
    ensures !EndsExhausted(Retries(a, k))
    ensures Claims(Retries(a, k)) == k
    decreases k
  {
    if k > 0 {
      RetriesEnd(a + 1, k - 1);
      var rest := Retries(a + 1, k - 1);
      assert Retries(a, k)[1..][1..] == rest;
      assert Retries(a, k)[1..] == [Requeued(a + 1)] + rest;
    }
  }

  lemma {:induction false} ClaimsJoin(a: seq<Change>, b: seq<Change>)
    ensures Claims(a + b) == Claims(a) + Claims(b)
    decreases |a|
  {
    if a == [] {
      assert a + b == b;
    } else {
      assert (a + b)[1..] == a[1..] + b;
      ClaimsJoin(a[1..], b);
    }
  }

  lemma ClaimsOfUsedUp(max: nat)
    requires max >= 1
    ensures Claims(UsedUp(max)) == max
  {
    RetriesEnd(0, max - 1);
    ClaimsJoin(Retries(0, max - 1), [Claimed(max), Exhausted(max)]);
    assert [Claimed(max), Exhausted(max)][1..] == [Exhausted(max)];
    assert Claims([Exhausted(max)]) == 0;
  }

  lemma LegEnds(w: seq<Change>, n: nat)
    requires n <= |w| && EndsExhausted(w) && !EndsExhausted(w[..n])
    ensures w == w[..n] + w[n..] && EndsExhausted(w[n..]) && w[|w| - 1] == w[n..][|w| - n - 1]
  {
  }

  lemma UsedUpShape(w: seq<Change>, max: int)
    requires FromQueued(w, 0) && EndsExhausted(w)
    requires forall i :: 0 <= i < |w| && w[i].Exhausted? ==> w[i].attempt == max
    ensures max >= 1 && w == UsedUp(max) && Claims(w) == max
  {
    var k := Shape(w, 0);
    RetriesEnd(0, k);
    LegEnds(w, 2 * k);
    assert w[2 * k..] == [Claimed(k + 1), Exhausted(k + 1)];
    ClaimsOfUsedUp(k + 1);
  }

  /** `retries_exhausted` in a row means exactly this history. */
  lemma ExhaustedHistory(calls: seq<Call>, t: TaskId)
    requires AllProper(calls) && AllGuarded(EMPTY, calls) && t in ExecAll(EMPTY, calls).tasks
    ensures var w, row := Word(EMPTY, calls, t), ExecAll(EMPTY, calls).tasks[t];
            && (row.failureReason == Some(RetriesExhausted) <==> EndsExhausted(w))
            && (EndsExhausted(w) ==>
                  row.status == Failed && 1 <= row.maxAttempts == row.attempt && w == UsedUp(row.maxAttempts))
  {
    var w, row := Word(EMPTY, calls, t), ExecAll(EMPTY, calls).tasks[t];
    ExhaustsFromCreation(EMPTY, calls, t);
    WholeHistory(EMPTY, calls, t);
    if EndsExhausted(w) {
      UsedUpShape(w, row.maxAttempts);
    }
  }

  /** Nobody finished an attempt and nobody withdrew the task. */
  predicate OnlyCrashes(w: seq<Change>) {
    forall i :: 0 <= i < |w| ==> !w[i].Finished? && !w[i].Withdrawn?
  }

  /** A task that is over although no attempt finished and nobody withdrew it has used up
      exactly its attempts. */
  lemma CrashesExhaust(calls: seq<Call>, t: TaskId)
    requires AllProper(calls) && AllGuarded(EMPTY, calls) && t in ExecAll(EMPTY, calls).tasks
    requires IsTerminal(ExecAll(EMPTY, calls).tasks[t].status) && OnlyCrashes(Word(EMPTY, calls, t))
    ensures var row := ExecAll(EMPTY, calls).tasks[t];
            && row.status == Failed && row.failureReason == Some(RetriesExhausted)
            && 1 <= row.maxAttempts == row.attempt && Word(EMPTY, calls, t) == UsedUp(row.maxAttempts)
  {
    WholeHistory(EMPTY, calls, t);
    ExhaustedHistory(calls, t);
  }

  /** One step's call, if it makes one, ahead of the others. */
  lemma CallFirst(db: Db, call: seq<Call>, rest: seq<Call>)
    requires |call| <= 1
    requires var db' := if call == [] then db else Exec(db, call[0]);
             AllProper(rest) && AllGuarded(db', rest) && (call != [] ==> Proper(call[0]) && Guarded(db, call[0]))
    ensures AllProper(call + rest) && AllGuarded(db, call + rest)
    ensures ExecAll(db, call + rest) == ExecAll(if call == [] then db else Exec(db, call[0]), rest)
  {
    if call == [] {
      assert call + rest == rest;
    } else {
      assert (call + rest)[0] == call[0] && (call + rest)[1..] == rest;
    }
  }

  // ---------- the terminal event ----------

  /** The terminal events of a task in the log. */
  function Endings(log: seq<Event>, t: TaskId): seq<Event> {
    if log == [] then [] else
      var e := log[|log| - 1];
      Endings(log[..|log| - 1], t) + if e.taskId == t && Closes(e) then [e] else []
  }

  /** The event tells what the row says. */
  predicate Announces(e: Event, t: Task) {
    && e.kind == EndKind(t.status)
    && e.payload.End? && e.payload.status == t.status && e.payload.reason == t.failureReason
  }

  /** Exactly one terminal event if the row is terminal, none otherwise. */
  predicate Accounted(endings: seq<Event>, t: Task) {
    if IsTerminal(t.status) then |endings| == 1 && Announces(endings[0], t) else endings == []
  }

  ghost predicate Sound(db: Db) {
    && Keyed(db.tasks) && Numbered(db.log)
    && (forall t :: t in db.tasks ==> Accounted(Endings(db.log, t), db.tasks[t]))
    && (forall t :: t !in db.tasks ==> Endings(db.log, t) == [])
    && UniqueKeys(db)
  }

  lemma EndingsOfAppend(log: seq<Event>, news: seq<Event>, t: TaskId)
    requires |news| <= 1
    ensures Endings(log + news, t) ==
            Endings(log, t) + if news != [] && news[0].taskId == t && Closes(news[0]) then news else []
  {
    if news == [] {
      assert log + news == log;
    } else {
      assert (log + news)[..|log|] == log;
      assert news == [news[0]];
    }
  }

  /** A new terminal event comes together with the row's step into a terminal status, and
      there is no other such step. */
  predicate EndsWith(news: seq<Event>, before: Task, after: Task, t: TaskId) {
    if news != [] && Closes(news[0]) && news[0].taskId == t
    then !IsTerminal(before.status) && IsTerminal(after.status) && Announces(news[0], after)
    else IsTerminal(after.status) == IsTerminal(before.status)
         && (IsTerminal(before.status) ==>
               after.status == before.status && after.failureReason == before.failureReason)
  }

  /** One call adds at most one event. */
  lemma LogStep(db: Db, c: Call) returns (news: seq<Event>)
    requires Proper(c)
    ensures Exec(db, c).log == db.log + news && |news| <= 1
    ensures news != [] ==> news[0].id == |db.log| + 1
    ensures forall t :: t in db.tasks ==>
              t in Exec(db, c).tasks && EndsWith(news, db.tasks[t], Exec(db, c).tasks[t], t)
    ensures forall t :: t in Exec(db, c).tasks && t !in db.tasks ==> Exec(db, c).tasks[t].status == Queued
    ensures news != [] && Closes(news[0]) ==> news[0].taskId in db.tasks
  {
    var log' := Exec(db, c).log;
    if log' == db.log {
      news := [];
    } else {
      news := [log'[|db.log|]];
    }
  }

  lemma EndingStays(log: seq<Event>, news: seq<Event>, before: Task, after: Task, t: TaskId)
    requires |news| <= 1 && Accounted(Endings(log, t), before) && EndsWith(news, before, after, t)
    ensures Accounted(Endings(log + news, t), after)
  {
    EndingsOfAppend(log, news, t);
  }

  lemma CreateKeepsKeys(db: Db, id: TaskId, prompt: string, key: Option<string>, maxAttempts: int)
    requires Keyed(db.tasks) && UniqueKeys(db)
    ensures UniqueKeys(Create(db, id, prompt, key, maxAttempts).0)
  {
    var db' := Create(db, id, prompt, key, maxAttempts).0;
    forall a, b, k | HoldsKey(db', a, k) && HoldsKey(db', b, k) ensures a == b {
      assert a != id ==> HoldsKey(db, a, k);
      assert b != id ==> HoldsKey(db, b, k);
    }
  }

  lemma OthersKeepKeys(db: Db, c: Call, t: TaskId)
    requires !c.DoCreate?
    ensures t in Exec(db, c).tasks <==> t in db.tasks
    ensures t in db.tasks ==> Exec(db, c).tasks[t].idempotencyKey == db.tasks[t].idempotencyKey
  {
  }

  lemma KeysStayUnique(db: Db, c: Call)
    requires Keyed(db.tasks) && UniqueKeys(db)
    ensures UniqueKeys(Exec(db, c))
  {
    if c.DoCreate? {
      CreateKeepsKeys(db, c.id, c.prompt, c.key, c.maxAttempts);
    } else {
      forall a, b, k | HoldsKey(Exec(db, c), a, k) && HoldsKey(Exec(db, c), b, k) ensures a == b {
        OthersKeepKeys(db, c, a);
        OthersKeepKeys(db, c, b);
        assert HoldsKey(db, a, k) && HoldsKey(db, b, k);
      }
    }
  }

  lemma EndingsStep(db: Db, c: Call)
    requires Sound(db) && Proper(c)
    ensures Numbered(Exec(db, c).log)
    ensures forall t :: t in Exec(db, c).tasks ==> Accounted(Endings(Exec(db, c).log, t), Exec(db, c).tasks[t])
    ensures forall t :: t !in Exec(db, c).tasks ==> Endings(Exec(db, c).log, t) == []
  {
    var db' := Exec(db, c);
    var news := LogStep(db, c);
    forall t
      ensures t in db'.tasks ==> Accounted(Endings(db'.log, t), db'.tasks[t])
      ensures t !in db'.tasks ==> Endings(db'.log, t) == []
    {
      if t in db.tasks {
        EndingStays(db.log, news, db.tasks[t], db'.tasks[t], t);
      } else {
        EndingsOfAppend(db.log, news, t);
      }
    }
  }

  lemma SoundStep(db: Db, c: Call)
    requires Sound(db) && Proper(c)
    ensures Sound(Exec(db, c))
  {
    EndingsStep(db, c);
    StaysKeyed(db, c);
    KeysStayUnique(db, c);
  }

  /** Exactly-once termination, over any calls in any order. */
  lemma {:induction false} ExactlyOneEnding(db: Db, calls: seq<Call>)
    requires Sound(db) && AllProper(calls)
    ensures Sound(ExecAll(db, calls))
    decreases |calls|
  {
    if calls != [] {
      SoundStep(db, calls[0]);
      ExactlyOneEnding(Exec(db, calls[0]), calls[1..]);
    }
  }

  lemma TerminalStep(db: Db, c: Call, t: TaskId)
    requires Proper(c) && t in db.tasks && IsTerminal(db.tasks[t].status)
    ensures t in Exec(db, c).tasks
    ensures Exec(db, c).tasks[t].status == db.tasks[t].status
    ensures Exec(db, c).tasks[t].failureReason == db.tasks[t].failureReason
    ensures Endings(Exec(db, c).log, t) == Endings(db.log, t)
  {
    var news := LogStep(db, c);
    EndingsOfAppend(db.log, news, t);
  }

  /** A terminal row never changes its outcome again, and gets no further terminal event. */
  lemma {:induction false} TerminalIsForever(db: Db, calls: seq<Call>, t: TaskId)
    requires AllProper(calls) && t in db.tasks && IsTerminal(db.tasks[t].status)
    ensures t in ExecAll(db, calls).tasks
    ensures var row := ExecAll(db, calls).tasks[t];
            row.status == db.tasks[t].status && row.failureReason == db.tasks[t].failureReason
            && Endings(ExecAll(db, calls).log, t) == Endings(db.log, t)
    decreases |calls|
  {
    if calls != [] {
      TerminalStep(db, calls[0], t);
      TerminalIsForever(Exec(db, calls[0]), calls[1..], t);
    }
  }

  // ---------- idempotent submission ----------

  lemma KeyIsKept(db: Db, c: Call, t: TaskId, key: string)
    requires Sound(db) && HoldsKey(db, t, key)
    ensures HoldsKey(Exec(db, c), t, key)
  {
  }

  /** Whatever happens after a task was stored under a key, a second submission with that
      key returns that task and changes nothing; unless the key is the empty string, which
      is not looked up and then violates the UNIQUE column. */
  lemma {:induction false} Resubmission(db: Db, calls: seq<Call>, t: TaskId, key: string,
                                        id: TaskId, prompt: string, maxAttempts: int)
    requires Sound(db) && AllProper(calls) && HoldsKey(db, t, key)
    ensures var db' := ExecAll(db, calls);
            var (after, r) := Create(db', id, prompt, Some(key), maxAttempts);
            && HoldsKey(db', t, key) && after == db'
            && (r.Existing? <==> key != "")
            && (r.Existing? ==> r.task == db'.tasks[t])
            && (!r.Existing? ==> r == IntegrityError)
    decreases |calls|
  {
    if calls != [] {
      SoundStep(db, calls[0]);
      KeyIsKept(db, calls[0], t, key);
      Resubmission(Exec(db, calls[0]), calls[1..], t, key, id, prompt, maxAttempts);
    }
  }

  // ---------- token accounting ----------

  function Balance(db: Db, t: TaskId, name: string): int {
    if t in db.tasks then Tokens(db.tasks[t].usage, name) else 0
  }

  function Charge(c: Call, t: TaskId, name: string): int {
    if c.DoAddUsage? && c.id == t then Tokens(c.usage, name) else 0
  }
}

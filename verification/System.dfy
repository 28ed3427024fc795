/** The platform as a transition system: any number of workers and API requests run
    concurrently over one database and one Redis that may lose its contents at any
    time. One store call or one Redis command is one step (GET and DELETE of a lease
    release are two), and any worker or request may die between two steps. */
module System {
  import opened Models
  import opened Database
  import opened History

  // ---------- a worker: poll_once, reconcile, run_attempt ----------

  /** Where `run_attempt` stands. The reaper thread lives in `Working` and `EmitPublish`. */
  datatype Stage =
    | Starting
    | StartPublish(e: Event)
    | Working
    | EmitPublish(e: Event)
    | UsageDue(usage: Usage, report: Report)
    | FinishDue(report: Report)

  datatype Worker =
    | Idle                                               // at the top of poll_once
    | Surveying(todo: seq<Task>)                         // reconcile phase 1: read the lease of todo[0]
    | Mending(t: Task, todo: seq<Task>)                  // it was gone: requeue or fail t
    | MendEnqueue(id: TaskId, todo: seq<Task>)           // requeued: push the id
    | MendPublish(e: Event, todo: seq<Task>)             // failed: publish the event
    | Scanned(inRedis: set<TaskId>)                      // phase 2: read the queued tasks
    | Repushing(inRedis: set<TaskId>, todo: seq<Task>)   // push todo[0] if Redis lacks it
    | Through                                            // passed the cap check: dequeue
    | Holding(id: TaskId)                                // dequeued: take the lease
    | Leased(id: TaskId, token: Token)                   // claim
    | Attempting(task: Task, token: Token, stop: Option<Reason>, stage: Stage)
    | EndPublish(e: Event, id: TaskId, token: Token)     // finished: publish the terminal event
    | Releasing(id: TaskId, token: Token)                // release_lease: GET
    | Deleting(id: TaskId, token: Token)                 // release_lease: DELETE, whatever is there by now

  datatype Action =
    | List(rows: seq<Task>)                              // the answer of tasks_with_status
    | Advance                                            // whatever comes next
    | Acquire(token: Token)
    | Emit(kind: EventKind, json: string)                // the agent loop emits an event
    | Reap(timedOut: bool)                               // the reaper wakes up
    | Conclude(report: Report)                           // the agent loop is over
    | Crash                                              // also: an exception escapes poll_once

  /** How an attempt can end, given what the reaper has decided: the agent loop returned,
      it was stopped, or the sandbox died. */
  predicate Concludes(stop: Option<Reason>, r: Report) {
    && r.artifacts.Some?
    && (|| (r.status == Succeeded && r.reason == None && r.summary.Some? && r.summary != Some("") && r.usage.Some?)
        || (r.status == Failed && (r.reason == Some(ModelError) || r.reason == Some(MaxSteps)) && r.usage.Some?)
        || (stop.Some? && r.reason == stop && r.usage == None
            && r.status == (if stop == Some(UserCancelled) then Cancelled else Failed))
        || (stop == None && r.status == Failed && r.usage == None
            && (r.reason == Some(SandboxOom) || r.reason == Some(ToolError))))
  }

  predicate CancelSeen(db: Db, id: TaskId) {
    id in db.tasks && db.tasks[id].cancelRequested
  }

  predicate WorkerCan(sh: Shared, me: Worker, a: Action) {
    match a
    case List(rows) =>
      (me.Idle? && Lists(rows, sh.db.tasks, Running)) || (me.Scanned? && Lists(rows, sh.db.tasks, Queued))
    case Advance =>
      !me.Idle? && !me.Scanned? && !me.Holding? && (me.Attempting? ==> !me.stage.Working?)
    case Acquire(_) => me.Holding?
    case Emit(kind, _) =>
      me.Attempting? && me.stage.Working? && (kind.LlmMessage? || kind.ToolCall? || kind.ToolResult?)
    case Reap(timedOut) =>
      && me.Attempting? && (me.stage.Working? || me.stage.EmitPublish?) && me.stop == None
      && (CancelSeen(sh.db, me.task.id) || timedOut)
    case Conclude(report) =>
      me.Attempting? && me.stage.Working? && Concludes(me.stop, report)
    case Crash => true
  }

  function StartedBody(t: Task): Payload {
    Body(t.prompt)
  }

  function ReportStage(r: Report): Stage {
    if r.usage.Some? && r.usage.value != map[] then UsageDue(r.usage.value, r) else FinishDue(r)
  }

  function WorkerMove(self: WorkerId, cap: int, sh: Shared, me: Worker, a: Action): (Shared, Worker)
    requires WorkerCan(sh, me, a)
  {
    match a
    case List(rows) => (sh, if me.Idle? then Surveying(rows) else Repushing(me.inRedis, rows))
    case Advance => WorkerAdvance(self, cap, sh, me)
    case Acquire(token) =>
      if me.id in sh.leases then (sh, Idle)
      else (sh.(leases := sh.leases[me.id := token]), Leased(me.id, token))
    case Emit(kind, json) =>
      var (db, e) := Append(sh.db, me.task.id, me.task.attempt, kind, Body(json));
      (sh.(db := db), me.(stage := EmitPublish(e)))
    case Reap(_) =>
      (sh, me.(stop := Some(if CancelSeen(sh.db, me.task.id) then UserCancelled else TimedOut)))
    case Conclude(report) => (sh, me.(stage := ReportStage(report)))
    case Crash => (sh, Idle)
  }

  function WorkerAdvance(self: WorkerId, cap: int, sh: Shared, me: Worker): (Shared, Worker)
    requires WorkerCan(sh, me, Advance)
  {
    match me
    case Surveying(todo) =>
      if todo == [] then (sh, Scanned(set id | id in sh.queue))
      else if todo[0].id in sh.leases then (sh, Surveying(todo[1..]))
      else (sh, Mending(todo[0], todo[1..]))
    case Mending(t, todo) =>
      if t.attempt < t.maxAttempts then
        var (db, ok) := Requeue(sh.db, t.id, t.attempt);
        (sh.(db := db), if ok then MendEnqueue(t.id, todo) else Surveying(todo))
      else
        var (db, e) := FailExhausted(sh.db, t.id, t.attempt);
        (sh.(db := db), if e.Some? then MendPublish(e.value, todo) else Surveying(todo))
    case MendEnqueue(id, todo) => (sh.(queue := [id] + sh.queue), Surveying(todo))
    case MendPublish(e, todo) => (sh.(published := sh.published + [e]), Surveying(todo))
    case Repushing(inRedis, todo) =>
      if todo == [] then (sh, if |sh.leases| >= cap then Idle else Through)
      else if todo[0].id in inRedis then (sh, Repushing(inRedis, todo[1..]))
      else (sh.(queue := [todo[0].id] + sh.queue), Repushing(inRedis, todo[1..]))
    case Through =>
      if sh.queue == [] then (sh, Idle)
      else (sh.(queue := sh.queue[..|sh.queue| - 1]), Holding(sh.queue[|sh.queue| - 1]))
    case Leased(id, token) =>
      var (db, t) := Claim(sh.db, id, self);
      (sh.(db := db), if t.Some? then Attempting(t.value, token, None, Starting) else Releasing(id, token))
    case Attempting(task, token, stop, stage) => AttemptAdvance(sh, task, token, stop, stage)
    case EndPublish(e, id, token) => (sh.(published := sh.published + [e]), Releasing(id, token))
    case Releasing(id, token) =>
      (sh, if id in sh.leases && sh.leases[id] == token then Deleting(id, token) else Idle)
    case Deleting(id, _) => (sh.(leases := sh.leases - {id}), Idle)
  }

  function AttemptAdvance(sh: Shared, task: Task, token: Token, stop: Option<Reason>, stage: Stage): (Shared, Worker)
    requires !stage.Working?
  {
    match stage
    case Starting =>
      var (db, e) := Append(sh.db, task.id, task.attempt, JobStarted, StartedBody(task));
      (sh.(db := db), Attempting(task, token, stop, StartPublish(e)))
    case StartPublish(e) =>
      (sh.(published := sh.published + [e]), Attempting(task, token, stop, Working))
    case EmitPublish(e) =>
      (sh.(published := sh.published + [e]), Attempting(task, token, stop, Working))
    case UsageDue(usage, report) =>
      (sh.(db := AddUsage(sh.db, task.id, usage).0), Attempting(task, token, stop, FinishDue(report)))
    case FinishDue(report) =>
      var (db, e) := Finish(sh.db, task.id, task.attempt, report);
      (sh.(db := db), if e.Some? then EndPublish(e.value, task.id, token) else Releasing(task.id, token))
  }

  // ---------- an API request: create_task, cancel_task ----------

  datatype Handler =
    | Submitted(id: TaskId)       // created: enqueue
    | Cancelling(id: TaskId)      // the row was not terminal: cancel_queued
    | CancelPublish(e: Event)     // cancelled: publish the event
    | Flagging(id: TaskId)        // it was not queued: request_cancel
    | Answered

  /** What a request does next; a request that died stays where it is. */
  function HandlerMove(sh: Shared, me: Handler): (Shared, Handler) {
    match me
    case Submitted(id) => (sh.(queue := [id] + sh.queue), Answered)
    case Cancelling(id) =>
      var (db, e) := CancelQueued(sh.db, id);
      (sh.(db := db), if e.Some? then CancelPublish(e.value) else Flagging(id))
    case CancelPublish(e) => (sh.(published := sh.published + [e]), Answered)
    case Flagging(id) => (sh.(db := RequestCancel(sh.db, id).0), Answered)
    case Answered => (sh, Answered)
  }

  // ---------- the whole ----------

  datatype State = State(sh: Shared, workers: map<WorkerId, Worker>, handlers: map<nat, Handler>)

  datatype Config = Config(workers: set<WorkerId>, cap: int)

  datatype Step =
    | WorkerStep(w: WorkerId, a: Action)
    | Submit(h: nat, id: TaskId, prompt: string, key: Option<string>, maxAttempts: int)
    | AskCancel(h: nat, id: TaskId)
    | HandlerStep(h: nat)
    | RedisLoss(queue: seq<TaskId>, keep: set<TaskId>)

  ghost function Init(cfg: Config): State {
    State(Shared(EMPTY, [], map[], []), map w | w in cfg.workers :: Idle, map[])
  }

  ghost predicate Enabled(s: State, step: Step) {
    match step
    case WorkerStep(w, a) => w in s.workers && WorkerCan(s.sh, s.workers[w], a)
    case Submit(h, _, _, _, _) => h !in s.handlers
    case AskCancel(h, _) => h !in s.handlers
    case HandlerStep(h) => h in s.handlers
    case RedisLoss(_, _) => true
  }

  /** `RedisLoss` is a lease that expired, a wipe, or any damage to the queue: leases can
      only vanish, the queue may hold anything afterwards. */
  ghost function Next(cfg: Config, s: State, step: Step): State
    requires Enabled(s, step)
  {
    match step
    case WorkerStep(w, a) =>
      var (sh, me) := WorkerMove(w, cfg.cap, s.sh, s.workers[w], a);
      s.(sh := sh, workers := s.workers[w := me])
    case Submit(h, id, prompt, key, maxAttempts) =>
      var (db, r) := Create(s.sh.db, id, prompt, key, maxAttempts);
      s.(sh := s.sh.(db := db), handlers := s.handlers[h := if r.Created? then Submitted(id) else Answered])
    case AskCancel(h, id) =>
      var open := id in s.sh.db.tasks && !IsTerminal(s.sh.db.tasks[id].status);
      s.(handlers := s.handlers[h := if open then Cancelling(id) else Answered])
    case HandlerStep(h) =>
      var (sh, me) := HandlerMove(s.sh, s.handlers[h]);
      s.(sh := sh, handlers := s.handlers[h := me])
    case RedisLoss(queue, keep) =>
      s.(sh := s.sh.(queue := queue, leases := map id | id in s.sh.leases && id in keep :: s.sh.leases[id]))
  }

  ghost predicate IsRun(cfg: Config, s: State, steps: seq<Step>)
    decreases |steps|
  {
    steps != [] ==> Enabled(s, steps[0]) && IsRun(cfg, Next(cfg, s, steps[0]), steps[1..])
  }

  ghost function Run(cfg: Config, s: State, steps: seq<Step>): State
    requires IsRun(cfg, s, steps)
    decreases |steps|
  {
    if steps == [] then s else Run(cfg, Next(cfg, s, steps[0]), steps[1..])
  }

  // ---------- the store calls of a run ----------

  function AdvanceCall(self: WorkerId, me: Worker): seq<Call> {
    match me
    case Mending(t, _) =>
      if t.attempt < t.maxAttempts then [DoRequeue(t.id, t.attempt)] else [DoFail(t.id, t.attempt)]
    case Leased(id, _) => [DoClaim(id, self)]
    case Attempting(task, _, _, stage) =>
      (match stage
       case Starting => [DoAppend(task.id, task.attempt, JobStarted, StartedBody(task))]
       case UsageDue(usage, _) => [DoAddUsage(task.id, usage)]
       case FinishDue(report) => [DoFinish(task.id, task.attempt, report)]
       case _ => [])
    case _ => []
  }

  function WorkerCall(self: WorkerId, me: Worker, a: Action): seq<Call> {
    match a
    case Advance => AdvanceCall(self, me)
    case Emit(kind, json) =>
      if me.Attempting? then [DoAppend(me.task.id, me.task.attempt, kind, Body(json))] else []
    case _ => []
  }

  function HandlerCall(me: Handler): seq<Call> {
    match me
    case Cancelling(id) => [DoCancelQueued(id)]
    case Flagging(id) => [DoRequestCancel(id)]
    case _ => []
  }

  ghost function StepCall(s: State, step: Step): seq<Call>
    requires Enabled(s, step)
  {
    match step
    case WorkerStep(w, a) => WorkerCall(w, s.workers[w], a)
    case Submit(_, id, prompt, key, maxAttempts) => [DoCreate(id, prompt, key, maxAttempts)]
    case HandlerStep(h) => HandlerCall(s.handlers[h])
    case _ => []
  }

  ghost function RunCalls(cfg: Config, s: State, steps: seq<Step>): seq<Call>
    requires IsRun(cfg, s, steps)
    decreases |steps|
  {
    if steps == [] then [] else StepCall(s, steps[0]) + RunCalls(cfg, Next(cfg, s, steps[0]), steps[1..])
  }
}

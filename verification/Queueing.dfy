/** The work queue over whole runs: as long as Redis loses nothing, entries leave it in the
    order in which they came, each once. */
module Queueing {
  import opened Models
  import opened Database
  import opened System
  import opened Leases

  /** Oldest first: the list's other end. */
  function Oldest(queue: seq<TaskId>): seq<TaskId> {
    if queue == [] then [] else Oldest(queue[1..]) + [queue[0]]
  }

  lemma {:induction false} OldestLast(queue: seq<TaskId>, id: TaskId)
    ensures Oldest(queue + [id]) == [id] + Oldest(queue)
    decreases |queue|
  {
    if queue == [] {
      assert queue + [id] == [id] && [id][1..] == [];
    } else {
      assert (queue + [id])[1..] == queue[1..] + [id];
      OldestLast(queue[1..], id);
    }
  }

  lemma OldestFirst(queue: seq<TaskId>, id: TaskId)
    ensures Oldest([id] + queue) == Oldest(queue) + [id]
  {
    assert ([id] + queue)[1..] == queue;
  }

  /** What a process puts into the queue: the API a new task, the repair pass a task that it
      requeued and each queued task that it missed. */
  function WorkerPuts(me: Worker, a: Action): seq<TaskId> {
    if !a.Advance? then []
    else
      match me
      case MendEnqueue(id, _) => [id]
      case Repushing(inRedis, todo) => if todo != [] && todo[0].id !in inRedis then [todo[0].id] else []
      case _ => []
  }

  ghost function Puts(s: State, step: Step): seq<TaskId>
    requires Enabled(s, step)
  {
    match step
    case WorkerStep(w, a) => WorkerPuts(s.workers[w], a)
    case HandlerStep(h) => if s.handlers[h].Submitted? then [s.handlers[h].id] else []
    case _ => []
  }

  /** What a worker takes out: it holds it afterwards. */
  predicate TakesNow(me: Worker, me': Worker) {
    me.Through? && me'.Holding?
  }

  ghost function Taken(cfg: Config, s: State, step: Step): seq<TaskId>
    requires Enabled(s, step)
  {
    if step.WorkerStep? && TakesNow(s.workers[step.w], Next(cfg, s, step).workers[step.w])
    then [Next(cfg, s, step).workers[step.w].id] else []
  }

  ghost function AllPut(cfg: Config, s: State, steps: seq<Step>): seq<TaskId>
    requires IsRun(cfg, s, steps)
    decreases |steps|
  {
    if steps == [] then [] else Puts(s, steps[0]) + AllPut(cfg, Next(cfg, s, steps[0]), steps[1..])
  }

  ghost function AllTaken(cfg: Config, s: State, steps: seq<Step>): seq<TaskId>
    requires IsRun(cfg, s, steps)
    decreases |steps|
  {
    if steps == [] then [] else Taken(cfg, s, steps[0]) + AllTaken(cfg, Next(cfg, s, steps[0]), steps[1..])
  }

  lemma WorkerQueues(self: WorkerId, cap: int, sh: Shared, me: Worker, a: Action)
    requires WorkerCan(sh, me, a)
    ensures var (sh', me') := WorkerMove(self, cap, sh, me, a);
            && (TakesNow(me, me') ==> WorkerPuts(me, a) == [] && sh.queue == sh'.queue + [me'.id])
            && (!TakesNow(me, me') ==> sh'.queue == WorkerPuts(me, a) + sh.queue)
    ensures |WorkerPuts(me, a)| <= 1
  {
  }

  /** One entry enters at the one end or leaves at the other. */
  predicate QueueMoves(queue: seq<TaskId>, queue': seq<TaskId>, out: seq<TaskId>, put: seq<TaskId>) {
    || (out == [] && |put| <= 1 && queue' == put + queue)
    || (put == [] && |out| == 1 && queue == queue' + out)
  }

  lemma MovesInOrder(queue: seq<TaskId>, queue': seq<TaskId>, out: seq<TaskId>, put: seq<TaskId>)
    requires QueueMoves(queue, queue', out, put)
    ensures out + Oldest(queue') == Oldest(queue) + put
  {
    if out != [] {
      assert out == [out[0]];
      OldestLast(queue', out[0]);
    } else if put == [] {
      assert queue' == queue;
    } else {
      assert put == [put[0]];
      OldestFirst(queue, put[0]);
    }
  }

  lemma StepQueues(cfg: Config, s: State, step: Step)
    requires Enabled(s, step) && !step.RedisLoss?
    ensures QueueMoves(s.sh.queue, Next(cfg, s, step).sh.queue, Taken(cfg, s, step), Puts(s, step))
  {
    if step.WorkerStep? {
      WorkerQueues(step.w, cfg.cap, s.sh, s.workers[step.w], step.a);
    }
  }

  lemma {:induction false} RunQueues(cfg: Config, s: State, steps: seq<Step>)
    requires IsRun(cfg, s, steps) && NoExpiry(steps)
    ensures AllTaken(cfg, s, steps) + Oldest(Run(cfg, s, steps).sh.queue)
            == Oldest(s.sh.queue) + AllPut(cfg, s, steps)
    decreases |steps|
  {
    if steps != [] {
      var s1 := Next(cfg, s, steps[0]);
      assert NoExpiry(steps[1..]) by {
        assert forall i :: 0 <= i < |steps[1..]| ==> steps[1..][i] == steps[i + 1];
      }
      StepQueues(cfg, s, steps[0]);
      MovesInOrder(s.sh.queue, s1.sh.queue, Taken(cfg, s, steps[0]), Puts(s, steps[0]));
      RunQueues(cfg, s1, steps[1..]);
      var out, more := Taken(cfg, s, steps[0]), AllTaken(cfg, s1, steps[1..]);
      Associative(out, more, Oldest(Run(cfg, s, steps).sh.queue));
      Associative(out, Oldest(s1.sh.queue), AllPut(cfg, s1, steps[1..]));
      Associative(Oldest(s.sh.queue), Puts(s, steps[0]), AllPut(cfg, s1, steps[1..]));
    }
  }

  /** In any run in which Redis loses nothing: what was put into the queue is, in order, what
      was taken from it, followed by what is still there. */
  lemma QueueIsFifo(cfg: Config, steps: seq<Step>)
    requires IsRun(cfg, Init(cfg), steps) && NoExpiry(steps)
    ensures AllPut(cfg, Init(cfg), steps)
            == AllTaken(cfg, Init(cfg), steps) + Oldest(Run(cfg, Init(cfg), steps).sh.queue)
  {
    RunQueues(cfg, Init(cfg), steps);
    assert Oldest([]) + AllPut(cfg, Init(cfg), steps) == AllPut(cfg, Init(cfg), steps);
  }
}

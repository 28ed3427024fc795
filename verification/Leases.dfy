/** Leases exclude: while none expires and no worker dies, every lease in Redis is held by
    exactly one worker, and every worker past the lease holds its own. */
module Leases {
  import opened Models
  import opened Database
  import opened System
  import opened SystemProof
  import opened Carried

  datatype Held = Held(id: TaskId, token: Token)

  /** The lease that a worker took and has not given back. */
  function HeldBy(me: Worker): Option<Held> {
    match me
    case Leased(id, token) => Some(Held(id, token))
    case Attempting(task, token, _, _) => Some(Held(task.id, token))
    case EndPublish(_, id, token) => Some(Held(id, token))
    case Releasing(id, token) => Some(Held(id, token))
    case Deleting(id, token) => Some(Held(id, token))
    case _ => None
  }

  ghost predicate Holds(s: State, w: WorkerId, id: TaskId, token: Token) {
    w in s.workers && HeldBy(s.workers[w]) == Some(Held(id, token))
  }

  ghost predicate Excluded(s: State) {
    && (forall id :: id in s.sh.leases ==> exists w :: Holds(s, w, id, s.sh.leases[id]))
    && (forall w, id, token :: Holds(s, w, id, token) ==> id in s.sh.leases && s.sh.leases[id] == token)
    && (forall v, w, id, a, b :: Holds(s, v, id, a) && Holds(s, w, id, b) ==> v == w)
  }

  /** A worker's step leaves the leases alone, takes a free one, or gives its own back. */
  predicate Takes(leases: map<TaskId, Token>, was: Option<Held>, leases': map<TaskId, Token>, now: Option<Held>) {
    || (leases' == leases && now == was)
    || (was == None && now.Some? && now.value.id !in leases && leases' == leases[now.value.id := now.value.token])
    || (was.Some? && now == None && leases' == leases - {was.value.id})
    || (was.Some? && now == None && leases' == leases
        && (was.value.id in leases ==> leases[was.value.id] != was.value.token))
  }

  lemma AttemptKeepsLease(sh: Shared, task: Task, token: Token, stop: Option<Reason>, stage: Stage)
    requires !stage.Working?
    ensures var (sh', me') := AttemptAdvance(sh, task, token, stop, stage);
            sh'.leases == sh.leases && HeldBy(me') == Some(Held(task.id, token))
  {
  }

  lemma MoveTakes(self: WorkerId, cap: int, sh: Shared, me: Worker, a: Action)
    requires WorkerCan(sh, me, a) && !a.Crash? && Keyed(sh.db.tasks)
    ensures var (sh', me') := WorkerMove(self, cap, sh, me, a);
            Takes(sh.leases, HeldBy(me), sh'.leases, HeldBy(me'))
  {
    if a.Advance? {
      match me
      case Attempting(task, token, stop, stage) => AttemptKeepsLease(sh, task, token, stop, stage);
      case Leased(id, _) => assert Claim(sh.db, id, self).1.Some? ==> Claim(sh.db, id, self).1.value.id == id;
      case _ =>
    }
  }

  /** The leases and the holders after worker `w` has moved. */
  ghost predicate TakenBy(s: State, s': State, w: WorkerId) {
    && w in s.workers && s'.workers.Keys == s.workers.Keys
    && (forall v :: v in s.workers && v != w ==> s'.workers[v] == s.workers[v])
    && Takes(s.sh.leases, HeldBy(s.workers[w]), s'.sh.leases, HeldBy(s'.workers[w]))
  }

  lemma OthersHoldOn(s: State, s': State, w: WorkerId)
    requires TakenBy(s, s', w)
    ensures forall v, id, token :: v != w ==> (Holds(s', v, id, token) <==> Holds(s, v, id, token))
  {
  }

  lemma LeasesHeld(s: State, s': State, w: WorkerId)
    requires Excluded(s) && TakenBy(s, s', w)
    ensures forall id :: id in s'.sh.leases ==> exists v :: Holds(s', v, id, s'.sh.leases[id])
  {
    OthersHoldOn(s, s', w);
    forall id | id in s'.sh.leases ensures exists v :: Holds(s', v, id, s'.sh.leases[id]) {
      if id in s.sh.leases && s'.sh.leases[id] == s.sh.leases[id] {
        var v :| Holds(s, v, id, s.sh.leases[id]);
        assert v != w ==> Holds(s', v, id, s'.sh.leases[id]);
        assert v == w ==> Holds(s', w, id, s'.sh.leases[id]);
      } else {
        assert Holds(s', w, id, s'.sh.leases[id]);
      }
    }
  }

  lemma HoldersLeased(s: State, s': State, w: WorkerId)
    requires Excluded(s) && TakenBy(s, s', w)
    ensures forall v, id, token :: Holds(s', v, id, token) ==> id in s'.sh.leases && s'.sh.leases[id] == token
    ensures forall u, v, id, a, b :: Holds(s', u, id, a) && Holds(s', v, id, b) ==> u == v
  {
    OthersHoldOn(s, s', w);
    var was := HeldBy(s.workers[w]);
    assert was.Some? ==> Holds(s, w, was.value.id, was.value.token);
    forall v, id, token | Holds(s', v, id, token) ensures id in s'.sh.leases && s'.sh.leases[id] == token {
      if v != w {
        assert Holds(s, v, id, token);
        assert forall t :: Holds(s, w, id, t) ==> v == w;
      } else if HeldBy(s.workers[w]) == Some(Held(id, token)) {
        assert Holds(s, w, id, token);
      }
    }
    forall u, v, id, a, b | Holds(s', u, id, a) && Holds(s', v, id, b) ensures u == v {
      assert u != w ==> Holds(s, u, id, a);
      assert v != w ==> Holds(s, v, id, b);
      assert HeldBy(s'.workers[w]) == HeldBy(s.workers[w]) ==> (u == w ==> Holds(s, u, id, a));
      assert HeldBy(s'.workers[w]) == HeldBy(s.workers[w]) ==> (v == w ==> Holds(s, v, id, b));
    }
  }

  /** Leases neither expire nor are lost in this run. */
  predicate NoExpiry(steps: seq<Step>) {
    forall i :: 0 <= i < |steps| ==> !steps[i].RedisLoss?
  }

  lemma RequestsHoldNothing(cfg: Config, s: State, step: Step)
    requires Enabled(s, step) && Excluded(s) && !step.WorkerStep? && !step.RedisLoss?
    ensures Excluded(Next(cfg, s, step))
  {
    var s' := Next(cfg, s, step);
    assert s'.workers == s.workers && s'.sh.leases == s.sh.leases;
    assert forall w, id, token :: Holds(s', w, id, token) <==> Holds(s, w, id, token);
  }

  lemma StepExcludes(cfg: Config, s: State, step: Step)
    requires Enabled(s, step) && Excluded(s) && Keyed(s.sh.db.tasks) && !step.RedisLoss?
    requires !(step.WorkerStep? && step.a.Crash?)
    ensures Excluded(Next(cfg, s, step))
  {
    if step.WorkerStep? {
      MoveTakes(step.w, cfg.cap, s.sh, s.workers[step.w], step.a);
      LeasesHeld(s, Next(cfg, s, step), step.w);
      HoldersLeased(s, Next(cfg, s, step), step.w);
    } else {
      RequestsHoldNothing(cfg, s, step);
    }
  }

  lemma {:induction false} RunExcludes(cfg: Config, s: State, steps: seq<Step>)
    requires IsRun(cfg, s, steps) && Inv(s) && Excluded(s) && NoCrash(steps) && NoExpiry(steps)
    ensures Excluded(Run(cfg, s, steps))
    decreases |steps|
  {
    if steps != [] {
      assert !steps[0].RedisLoss? && !(steps[0].WorkerStep? && steps[0].a.Crash?);
      assert forall i :: 0 <= i < |steps[1..]| ==> steps[1..][i] == steps[i + 1];
      StepExcludes(cfg, s, steps[0]);
      StepKeeps(cfg, s, steps[0]);
      RunExcludes(cfg, Next(cfg, s, steps[0]), steps[1..]);
    }
  }

  /** In any run in which no worker dies and no lease expires: each lease in Redis is held,
      under its token, by a worker; a worker that took a lease and has not given it back finds
      it there under its token; and no two workers hold a lease on the same task. */
  lemma LeasesExclude(cfg: Config, steps: seq<Step>)
    requires IsRun(cfg, Init(cfg), steps) && NoCrash(steps) && NoExpiry(steps)
    ensures var s := Run(cfg, Init(cfg), steps);
            && (forall id :: id in s.sh.leases ==> exists w :: Holds(s, w, id, s.sh.leases[id]))
            && (forall w, id, token :: Holds(s, w, id, token) ==> id in s.sh.leases && s.sh.leases[id] == token)
            && (forall v, w, id, a, b :: Holds(s, v, id, a) && Holds(s, w, id, b) ==> v == w)
  {
    InitHolds(cfg);
    assert Excluded(Init(cfg));
    RunExcludes(cfg, Init(cfg), steps);
  }

  /** So no lease is left behind: once everything has settled there is none. */
  lemma NoLeaseLeaks(cfg: Config, steps: seq<Step>)
    requires IsRun(cfg, Init(cfg), steps) && NoCrash(steps) && NoExpiry(steps)
    requires Settled(Run(cfg, Init(cfg), steps))
    ensures Run(cfg, Init(cfg), steps).sh.leases == map[]
  {
    InitHolds(cfg);
    assert Excluded(Init(cfg));
    RunExcludes(cfg, Init(cfg), steps);
    NobodyHolds(Run(cfg, Init(cfg), steps));
  }

  lemma NobodyHolds(s: State)
    requires Settled(s) && Excluded(s)
    ensures s.sh.leases == map[]
  {
  }

  /** Whatever happens, a lease that stays keeps its token: nobody takes over a live lease. */
  lemma LiveLeaseIsNotTakenOver(cfg: Config, s: State, step: Step, id: TaskId)
    requires Enabled(s, step) && id in s.sh.leases && id in Next(cfg, s, step).sh.leases
    ensures Next(cfg, s, step).sh.leases[id] == s.sh.leases[id]
  {
  }
}

/** Runs built out of stretches in which a single worker moves. */
module Blocks {
  import opened Models
  import opened Database
  import opened System

  /** These steps of one worker, and no others, lead from here to there. */
  ghost predicate Does(self: WorkerId, cap: int, sh: Shared, me: Worker, acts: seq<Action>, sh': Shared, me': Worker)
    decreases |acts|
  {
    if acts == [] then sh' == sh && me' == me
    else
      && WorkerCan(sh, me, acts[0])
      && var (sh1, me1) := WorkerMove(self, cap, sh, me, acts[0]);
         Does(self, cap, sh1, me1, acts[1..], sh', me')
  }

  /** One step ahead of the others. */
  lemma DoesFirst(self: WorkerId, cap: int, sh: Shared, me: Worker, a: Action, more: seq<Action>, sh': Shared,
                  me': Worker)
    requires WorkerCan(sh, me, a)
    requires var (sh1, me1) := WorkerMove(self, cap, sh, me, a); Does(self, cap, sh1, me1, more, sh', me')
    ensures Does(self, cap, sh, me, [a] + more, sh', me')
  {
    assert ([a] + more)[1..] == more;
  }

  lemma {:induction false} DoesJoin(self: WorkerId, cap: int, sh: Shared, me: Worker, acts: seq<Action>,
                                    sh1: Shared, me1: Worker, more: seq<Action>, sh2: Shared, me2: Worker)
    requires Does(self, cap, sh, me, acts, sh1, me1) && Does(self, cap, sh1, me1, more, sh2, me2)
    ensures Does(self, cap, sh, me, acts + more, sh2, me2)
    decreases |acts|
  {
    if acts == [] {
      assert acts + more == more;
    } else {
      var (sh', me') := WorkerMove(self, cap, sh, me, acts[0]);
      DoesJoin(self, cap, sh', me', acts[1..], sh1, me1, more, sh2, me2);
      DoesFirst(self, cap, sh, me, acts[0], acts[1..] + more, sh2, me2);
      assert acts + more == [acts[0]] + (acts[1..] + more);
    }
  }

  ghost function WorkerSteps(w: WorkerId, acts: seq<Action>): seq<Step> {
    seq(|acts|, i requires 0 <= i < |acts| => WorkerStep(w, acts[i]))
  }

  /** No id is put into the queue or taken out of it by anything but a process, and leases
      disappear, if at all, by expiring. */
  ghost predicate Tame(cfg: Config, s: State, steps: seq<Step>, expiry: bool)
    requires IsRun(cfg, s, steps)
    decreases |steps|
  {
    steps != [] ==>
      && (steps[0].RedisLoss? ==> expiry && steps[0].queue == s.sh.queue)
      && Tame(cfg, Next(cfg, s, steps[0]), steps[1..], expiry)
  }

  /** Such steps are a run of the platform in which only this worker moves. */
  lemma {:induction false} DoesIsRun(cfg: Config, s: State, w: WorkerId, acts: seq<Action>, sh': Shared, me': Worker)
    requires w in s.workers && Does(w, cfg.cap, s.sh, s.workers[w], acts, sh', me')
    ensures IsRun(cfg, s, WorkerSteps(w, acts)) && Tame(cfg, s, WorkerSteps(w, acts), false)
    ensures Run(cfg, s, WorkerSteps(w, acts)) == s.(sh := sh', workers := s.workers[w := me'])
    decreases |acts|
  {
    if acts != [] {
      var s1 := Next(cfg, s, WorkerStep(w, acts[0]));
      DoesIsRun(cfg, s1, w, acts[1..], sh', me');
      assert WorkerSteps(w, acts)[1..] == WorkerSteps(w, acts[1..]);
    }
  }

  lemma {:induction false} RunJoin(cfg: Config, s: State, steps: seq<Step>, more: seq<Step>)
    requires IsRun(cfg, s, steps) && IsRun(cfg, Run(cfg, s, steps), more)
    ensures IsRun(cfg, s, steps + more)
    ensures Run(cfg, s, steps + more) == Run(cfg, Run(cfg, s, steps), more)
    decreases |steps|
  {
    if steps == [] {
      assert steps + more == more;
    } else {
      RunJoin(cfg, Next(cfg, s, steps[0]), steps[1..], more);
      assert (steps + more)[0] == steps[0] && (steps + more)[1..] == steps[1..] + more;
    }
  }

  lemma {:induction false} TameJoin(cfg: Config, s: State, steps: seq<Step>, more: seq<Step>, expiry: bool)
    requires IsRun(cfg, s, steps) && IsRun(cfg, Run(cfg, s, steps), more) && IsRun(cfg, s, steps + more)
    requires Tame(cfg, s, steps, expiry) && Tame(cfg, Run(cfg, s, steps), more, expiry)
    ensures Tame(cfg, s, steps + more, expiry)
    decreases |steps|
  {
    if steps == [] {
      assert steps + more == more;
    } else {
      assert (steps + more)[0] == steps[0] && (steps + more)[1..] == steps[1..] + more;
      TameJoin(cfg, Next(cfg, s, steps[0]), steps[1..], more, expiry);
    }
  }

  lemma {:induction false} TameWeakens(cfg: Config, s: State, steps: seq<Step>, expiry: bool)
    requires IsRun(cfg, s, steps) && Tame(cfg, s, steps, false)
    ensures Tame(cfg, s, steps, expiry)
    decreases |steps|
  {
    if steps != [] {
      TameWeakens(cfg, Next(cfg, s, steps[0]), steps[1..], expiry);
    }
  }

  // ---------- states that a tame run reaches ----------

  ghost predicate TameRun(cfg: Config, s: State, steps: seq<Step>, expiry: bool, s': State) {
    IsRun(cfg, s, steps) && Tame(cfg, s, steps, expiry) && Run(cfg, s, steps) == s'
  }

  ghost predicate Reached(cfg: Config, s: State, expiry: bool) {
    exists steps :: TameRun(cfg, Init(cfg), steps, expiry, s)
  }

  lemma ReachInit(cfg: Config, expiry: bool)
    ensures Reached(cfg, Init(cfg), expiry)
  {
    assert TameRun(cfg, Init(cfg), [], expiry, Init(cfg));
  }

  lemma TameFirst(cfg: Config, s: State, step: Step, more: seq<Step>, expiry: bool, s': State)
    requires Enabled(s, step) && (step.RedisLoss? ==> expiry && step.queue == s.sh.queue)
    requires TameRun(cfg, Next(cfg, s, step), more, expiry, s')
    ensures TameRun(cfg, s, [step] + more, expiry, s')
  {
    assert ([step] + more)[1..] == more;
  }

  lemma ReachMore(cfg: Config, s: State, expiry: bool, more: seq<Step>, s': State)
    requires Reached(cfg, s, expiry) && TameRun(cfg, s, more, expiry, s')
    ensures Reached(cfg, s', expiry)
  {
    var steps :| TameRun(cfg, Init(cfg), steps, expiry, s);
    RunJoin(cfg, Init(cfg), steps, more);
    TameJoin(cfg, Init(cfg), steps, more, expiry);
    assert TameRun(cfg, Init(cfg), steps + more, expiry, s');
  }

  lemma ReachStep(cfg: Config, s: State, expiry: bool, step: Step)
    requires Reached(cfg, s, expiry) && Enabled(s, step)
    requires step.RedisLoss? ==> expiry && step.queue == s.sh.queue
    ensures Reached(cfg, Next(cfg, s, step), expiry)
  {
    var s' := Next(cfg, s, step);
    assert [step][1..] == [];
    assert IsRun(cfg, s', []) && Tame(cfg, s', [], expiry) && Run(cfg, s', []) == s';
    assert TameRun(cfg, s, [step], expiry, s');
    ReachMore(cfg, s, expiry, [step], Next(cfg, s, step));
  }

  /** The state after worker `w` alone has moved. */
  ghost function Moved(s: State, w: WorkerId, sh': Shared, me': Worker): State {
    s.(sh := sh', workers := s.workers[w := me'])
  }

  lemma ReachDoes(cfg: Config, s: State, expiry: bool, w: WorkerId, acts: seq<Action>, sh': Shared, me': Worker)
    requires Reached(cfg, s, expiry) && w in s.workers
    requires Does(w, cfg.cap, s.sh, s.workers[w], acts, sh', me')
    ensures Reached(cfg, Moved(s, w, sh', me'), expiry)
  {
    DoesIsRun(cfg, s, w, acts, sh', me');
    TameWeakens(cfg, s, WorkerSteps(w, acts), expiry);
    ReachMore(cfg, s, expiry, WorkerSteps(w, acts), Moved(s, w, sh', me'));
  }

  lemma ReachMove(cfg: Config, s: State, expiry: bool, w: WorkerId, a: Action)
    requires Reached(cfg, s, expiry) && w in s.workers && WorkerCan(s.sh, s.workers[w], a)
    ensures var (sh', me') := WorkerMove(w, cfg.cap, s.sh, s.workers[w], a); Reached(cfg, Moved(s, w, sh', me'), expiry)
  {
    ReachStep(cfg, s, expiry, WorkerStep(w, a));
  }
}

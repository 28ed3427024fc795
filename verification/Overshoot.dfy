/** The concurrency cap: how far the number of leases can exceed it, and that it can. */
module Overshoot {
  import opened Models
  import opened Database
  import opened System
  import opened Blocks
  import opened Stocked

  // ---------- the bound ----------

  predicate InWindow(me: Worker) {
    me.Through? || me.Holding?
  }

  /** Workers between the cap check and the lease. */
  ghost function Window(s: State): set<WorkerId> {
    set w | w in s.workers && InWindow(s.workers[w])
  }

  ghost function Limit(cfg: Config): int {
    if cfg.cap <= 0 || cfg.workers == {} then 0 else cfg.cap + |cfg.workers| - 1
  }

  ghost predicate Capped(cfg: Config, s: State) {
    s.workers.Keys == cfg.workers && |s.sh.leases| + |Window(s)| <= Limit(cfg)
  }

  /** How one move changes the two counts: they stay or fall; the worker turns its place
      in the window into a lease; or it passes the cap check while there is room. */
  predicate Counts(cap: int, sh: Shared, me: Worker, sh': Shared, me': Worker) {
    || (|sh'.leases| <= |sh.leases| && (InWindow(me') ==> InWindow(me)))
    || (|sh'.leases| == |sh.leases| + 1 && InWindow(me) && !InWindow(me'))
    || (sh'.leases == sh.leases && |sh.leases| < cap && !InWindow(me) && InWindow(me'))
  }

  lemma AdvanceLeases(self: WorkerId, cap: int, sh: Shared, me: Worker)
    requires WorkerCan(sh, me, Advance)
    ensures WorkerAdvance(self, cap, sh, me).0.leases == if me.Deleting? then sh.leases - {me.id} else sh.leases
  {
  }

  lemma AdvanceWindow(self: WorkerId, cap: int, sh: Shared, me: Worker)
    requires WorkerCan(sh, me, Advance) && InWindow(WorkerAdvance(self, cap, sh, me).1)
    ensures InWindow(me) || (me.Repushing? && |sh.leases| < cap)
  {
  }

  lemma AdvanceCounts(self: WorkerId, cap: int, sh: Shared, me: Worker)
    requires WorkerCan(sh, me, Advance)
    ensures var (sh', me') := WorkerAdvance(self, cap, sh, me); Counts(cap, sh, me, sh', me')
  {
    AdvanceLeases(self, cap, sh, me);
    if me.Deleting? {
      SmallerMap(sh.leases, {me.id});
    }
    if InWindow(WorkerAdvance(self, cap, sh, me).1) {
      AdvanceWindow(self, cap, sh, me);
    }
  }

  lemma MoveCounts(self: WorkerId, cap: int, sh: Shared, me: Worker, a: Action)
    requires WorkerCan(sh, me, a)
    ensures var (sh', me') := WorkerMove(self, cap, sh, me, a); Counts(cap, sh, me, sh', me')
  {
    if a.Advance? {
      AdvanceCounts(self, cap, sh, me);
    }
  }

  lemma SmallerMap<K, V>(m: map<K, V>, gone: set<K>)
    ensures |m - gone| <= |m|
  {
    assert (m - gone).Keys <= m.Keys;
    SubsetSize((m - gone).Keys, m.Keys);
  }

  lemma {:induction false} SubsetSize<K>(a: set<K>, b: set<K>)
    requires a <= b
    ensures |a| <= |b| && (|a| == |b| ==> a == b)
  {
    assert b == a + (b - a);
  }

  lemma WorkerStepCapped(cfg: Config, s: State, w: WorkerId, a: Action)
    requires Capped(cfg, s) && Enabled(s, WorkerStep(w, a))
    ensures Capped(cfg, Next(cfg, s, WorkerStep(w, a)))
  {
    var s' := Next(cfg, s, WorkerStep(w, a));
    var me, me' := s.workers[w], s'.workers[w];
    MoveCounts(w, cfg.cap, s.sh, me, a);
    assert s'.workers.Keys == s.workers.Keys;
    if InWindow(me) == InWindow(me') {
      assert Window(s') == Window(s);
    } else if InWindow(me) {
      assert Window(s') == Window(s) - {w};
    } else {
      assert Window(s') == Window(s) + {w} && w !in Window(s);
      SubsetSize(Window(s'), cfg.workers);
    }
  }

  lemma StepCapped(cfg: Config, s: State, step: Step)
    requires Capped(cfg, s) && Enabled(s, step)
    ensures Capped(cfg, Next(cfg, s, step))
  {
    var s' := Next(cfg, s, step);
    match step
    case WorkerStep(w, a) => WorkerStepCapped(cfg, s, w, a);
    case RedisLoss(_, keep) =>
      assert s'.sh.leases.Keys <= s.sh.leases.Keys;
      SubsetSize(s'.sh.leases.Keys, s.sh.leases.Keys);
      assert Window(s') == Window(s);
    case _ => assert Window(s') == Window(s);
  }

  lemma {:induction false} RunCapped(cfg: Config, s: State, steps: seq<Step>)
    requires Capped(cfg, s) && IsRun(cfg, s, steps)
    ensures Capped(cfg, Run(cfg, s, steps))
    decreases |steps|
  {
    if steps != [] {
      StepCapped(cfg, s, steps[0]);
      RunCapped(cfg, Next(cfg, s, steps[0]), steps[1..]);
    }
  }

  /** Leases and workers past the cap check together never exceed the cap by more than the
      number of workers minus one; a single worker respects the cap exactly. */
  lemma OvershootIsBounded(cfg: Config, steps: seq<Step>)
    requires IsRun(cfg, Init(cfg), steps)
    ensures var s := Run(cfg, Init(cfg), steps);
            && |s.sh.leases| + |Window(s)| <= Limit(cfg)
            && (|cfg.workers| == 1 && cfg.cap >= 0 ==> |s.sh.leases| <= cfg.cap)
  {
    assert Window(Init(cfg)) == {};
    RunCapped(cfg, Init(cfg), steps);
  }

  // ---------- the bound is reached ----------

  /** The first `j` leases, one poll after the other. */
  lemma {:induction false} Fill(cfg: Config, n: nat, j: nat) returns (s: State)
    requires j <= n && j <= cfg.cap && cfg.workers != {}
    ensures Reached(cfg, s, false) && Stock(s.sh, n, j) && Crew(cfg, s, n, {})
  {
    if j == 0 {
      s := StockOf(cfg, n);
    } else {
      s := Fill(cfg, n, j - 1);
      var w :| w in cfg.workers;
      s := OneReady(cfg, s, n, j - 1, {}, w);
      s := OneTakes(cfg, s, n, j - 1, {w}, w);
      assert {} + {w} == {w} && {w} - {w} == {};
    }
  }

  lemma {:induction false} AllReady(cfg: Config, n: nat, j: nat, ready: set<WorkerId>) returns (s: State)
    requires j <= n && j < cfg.cap && ready <= cfg.workers && cfg.workers != {}
    ensures Reached(cfg, s, false) && Stock(s.sh, n, j) && Crew(cfg, s, n, ready)
  {
    if ready == {} {
      s := Fill(cfg, n, j);
    } else {
      var w :| w in ready;
      s := AllReady(cfg, n, j, ready - {w});
      s := OneReady(cfg, s, n, j, ready - {w}, w);
      assert ready - {w} + {w} == ready;
    }
  }

  lemma {:induction false} AllTake(cfg: Config, s: State, n: nat, j: nat, ready: set<WorkerId>) returns (s': State)
    requires ready <= cfg.workers && j + |ready| <= n
    requires Reached(cfg, s, false) && Stock(s.sh, n, j) && Crew(cfg, s, n, ready)
    ensures Reached(cfg, s', false) && Stock(s'.sh, n, j + |ready|)
    decreases |ready|
  {
    s' := s;
    if ready != {} {
      var w :| w in ready;
      var s1 := OneTakes(cfg, s, n, j, ready, w);
      OneLess(ready, w);
      s' := AllTake(cfg, s1, n, j + 1, ready - {w});
    }
  }

  lemma OneLess(ready: set<WorkerId>, w: WorkerId)
    requires w in ready
    ensures |ready - {w}| == |ready| - 1
  {
  }

  lemma {:induction false} TameLosesNothing(cfg: Config, s: State, steps: seq<Step>)
    requires IsRun(cfg, s, steps) && Tame(cfg, s, steps, false)
    ensures forall i :: 0 <= i < |steps| ==> !steps[i].RedisLoss?
    decreases |steps|
  {
    if steps != [] {
      TameLosesNothing(cfg, Next(cfg, s, steps[0]), steps[1..]);
      assert steps == [steps[0]] + steps[1..];
    }
  }

  /** The bound is exact. With cap + workers - 1 tasks submitted and nothing lost in Redis,
      polls whose worker dies after its claim, and so leaves its lease behind, fill all slots
      but one; then all workers pass the cap check, and every one of them takes a lease.
      (Live workers hold at most one lease each.) */
  lemma BoundIsReached(cfg: Config) returns (steps: seq<Step>)
    requires cfg.cap >= 1 && cfg.workers != {}
    ensures IsRun(cfg, Init(cfg), steps) && (forall i :: 0 <= i < |steps| ==> !steps[i].RedisLoss?)
    ensures |Run(cfg, Init(cfg), steps).sh.leases| == cfg.cap + |cfg.workers| - 1
  {
    var n := cfg.cap - 1 + |cfg.workers|;
    var s := AllReady(cfg, n, cfg.cap - 1, cfg.workers);
    var s' := AllTake(cfg, s, n, cfg.cap - 1, cfg.workers);
    steps :| TameRun(cfg, Init(cfg), steps, false, s');
    TameLosesNothing(cfg, Init(cfg), steps);
  }

  ghost predicate CapAlwaysHolds(cfg: Config) {
    forall steps :: IsRun(cfg, Init(cfg), steps) ==> |Run(cfg, Init(cfg), steps).sh.leases| <= cfg.cap
  }

  /** `max_concurrency` is respected in all runs exactly when there is at most one worker
      or no slot at all (and a negative cap never is). */
  lemma CapHoldsIff(cfg: Config)
    ensures CapAlwaysHolds(cfg) <==> cfg.cap >= 0 && (|cfg.workers| <= 1 || cfg.cap == 0)
  {
    if cfg.cap < 0 {
      assert IsRun(cfg, Init(cfg), []) && Run(cfg, Init(cfg), []) == Init(cfg);
    } else if |cfg.workers| <= 1 || cfg.cap == 0 {
      forall steps | IsRun(cfg, Init(cfg), steps) ensures |Run(cfg, Init(cfg), steps).sh.leases| <= cfg.cap {
        OvershootIsBounded(cfg, steps);
      }
    } else {
      var steps := BoundIsReached(cfg);
    }
  }
}

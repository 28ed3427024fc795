/** Nothing that is logged gets lost on the way to the channel, unless a worker dies: every
    logged event is published, or some process is about to publish it. */
module Carried {
  import opened Models
  import opened Database
  import opened System
  import opened SystemProof
  import opened Publishing

  predicate NoCrash(steps: seq<Step>) {
    forall i :: 0 <= i < |steps| ==> !(steps[i].WorkerStep? && steps[i].a.Crash?)
  }

  predicate Published(sh: Shared, e: Event) {
    exists i :: 0 <= i < |sh.published| && sh.published[i] == e
  }

  ghost predicate CarriedBy(s: State, p: Place, e: Event) {
    Pending(s, p) == Some(e)
  }

  /** The event is published, or one process carries it. */
  ghost predicate Covered(s: State, e: Event) {
    Published(s.sh, e) || exists p :: CarriedBy(s, p, e)
  }

  ghost predicate AllCovered(s: State) {
    forall i :: 0 <= i < |s.sh.db.log| ==> Covered(s, s.sh.db.log[i])
  }

  /** A step of one process keeps log and channel, appends what it then carries, or
      publishes what it carried. */
  predicate Carries(log: seq<Event>, pub: seq<Event>, was: Option<Event>,
                    log': seq<Event>, pub': seq<Event>, now: Option<Event>)
  {
    || (log' == log && pub' == pub && now == was)
    || (was == None && now.Some? && log' == log + [now.value] && pub' == pub)
    || (was.Some? && now == None && log' == log && pub' == pub + [was.value])
  }

  lemma WorkerCarries(self: WorkerId, cap: int, sh: Shared, me: Worker, a: Action)
    requires WorkerCan(sh, me, a) && !a.Crash?
    ensures var (sh', me') := WorkerMove(self, cap, sh, me, a);
            Carries(sh.db.log, sh.published, Unpublished(me), sh'.db.log, sh'.published, Unpublished(me'))
  {
  }

  lemma RequestCarries(sh: Shared, me: Handler)
    ensures var (sh', me') := HandlerMove(sh, me);
            Carries(sh.db.log, sh.published, Unsent(me), sh'.db.log, sh'.published, Unsent(me'))
  {
  }

  lemma StepCarries(cfg: Config, s: State, step: Step) returns (p: Place)
    requires Enabled(s, step) && NoCrash([step])
    ensures var s' := Next(cfg, s, step);
            && Carries(s.sh.db.log, s.sh.published, Pending(s, p), s'.sh.db.log, s'.sh.published, Pending(s', p))
            && forall q :: q != p ==> Pending(s', q) == Pending(s, q)
  {
    assert [step][0] == step;
    match step
    case WorkerStep(w, a) =>
      p := AtWorker(w);
      WorkerCarries(w, cfg.cap, s.sh, s.workers[w], a);
    case HandlerStep(h) =>
      p := AtRequest(h);
      RequestCarries(s.sh, s.handlers[h]);
    case Submit(h, _, _, _, _) => p := AtRequest(h);
    case AskCancel(h, _) => p := AtRequest(h);
    case RedisLoss(_, _) => p := AtRequest(0);
  }

  lemma StaysCovered(s: State, s': State, p: Place, e: Event)
    requires Carries(s.sh.db.log, s.sh.published, Pending(s, p), s'.sh.db.log, s'.sh.published, Pending(s', p))
    requires forall q :: q != p ==> Pending(s', q) == Pending(s, q)
    requires Covered(s, e)
    ensures Covered(s', e)
  {
    if Published(s.sh, e) {
      var i :| 0 <= i < |s.sh.published| && s.sh.published[i] == e;
      assert s'.sh.published[i] == e;
    } else {
      var q :| CarriedBy(s, q, e);
      if q == p && Pending(s', p) == None {
        assert s'.sh.published[|s.sh.published|] == e;
      } else {
        assert CarriedBy(s', q, e);
      }
    }
  }

  lemma StepCovers(cfg: Config, s: State, step: Step)
    requires Enabled(s, step) && NoCrash([step]) && AllCovered(s)
    ensures AllCovered(Next(cfg, s, step))
  {
    var s' := Next(cfg, s, step);
    var p := StepCarries(cfg, s, step);
    forall i | 0 <= i < |s'.sh.db.log| ensures Covered(s', s'.sh.db.log[i]) {
      if i < |s.sh.db.log| {
        assert s'.sh.db.log[i] == s.sh.db.log[i];
        StaysCovered(s, s', p, s.sh.db.log[i]);
      } else {
        assert CarriedBy(s', p, s'.sh.db.log[i]);
      }
    }
  }

  lemma {:induction false} RunCovers(cfg: Config, s: State, steps: seq<Step>)
    requires IsRun(cfg, s, steps) && NoCrash(steps) && AllCovered(s)
    ensures AllCovered(Run(cfg, s, steps))
    decreases |steps|
  {
    if steps != [] {
      assert [steps[0]][0] == steps[0];
      StepCovers(cfg, s, steps[0]);
      RunCovers(cfg, Next(cfg, s, steps[0]), steps[1..]);
    }
  }

  /** In every run in which no worker dies, whatever happens to Redis and to requests: each
      logged event is published, or exactly one process carries it and publishes it next. */
  lemma LoggedIsPublishedOrCarried(cfg: Config, steps: seq<Step>, i: nat)
    requires IsRun(cfg, Init(cfg), steps) && NoCrash(steps)
    requires i < |Run(cfg, Init(cfg), steps).sh.db.log|
    ensures var s := Run(cfg, Init(cfg), steps); var e := s.sh.db.log[i];
            && (Published(s.sh, e) || exists p :: CarriedBy(s, p, e))
            && (Published(s.sh, e) ==> forall p :: !CarriedBy(s, p, e))
            && (forall p, q :: CarriedBy(s, p, e) && CarriedBy(s, q, e) ==> p == q)
  {
    var s := Run(cfg, Init(cfg), steps);
    RunCovers(cfg, Init(cfg), steps);
    InitHolds(cfg);
    RunPublishesOnce(cfg, Init(cfg), steps);
    assert Covered(s, s.sh.db.log[i]);
    CarriedOnce(s, s.sh.db.log[i]);
  }

  lemma CarriedOnce(s: State, e: Event)
    requires PublishedOnce(s)
    ensures Published(s.sh, e) ==> forall p :: !CarriedBy(s, p, e)
    ensures forall p, q :: CarriedBy(s, p, e) && CarriedBy(s, q, e) ==> p == q
  {
    assert forall p :: CarriedBy(s, p, e) ==> Fresh(s.sh.published, e.id);
    assert forall p, q :: CarriedBy(s, p, e) && CarriedBy(s, q, e) && p != q ==> Apart(Pending(s, p), Pending(s, q));
  }

  /** All workers are at the top of their loop and all requests are answered. */
  ghost predicate Settled(s: State) {
    && (forall w :: w in s.workers ==> s.workers[w] == Idle)
    && (forall h :: h in s.handlers ==> s.handlers[h] == Answered)
  }

  lemma NobodyCarries(s: State)
    requires Settled(s)
    ensures forall p, e :: !CarriedBy(s, p, e)
  {
    forall p, e ensures !CarriedBy(s, p, e) {
      assert Pending(s, p) == None;
    }
  }

  /** So once everything has settled, every row of the log has been published. */
  lemma AllPublished(cfg: Config, steps: seq<Step>)
    requires IsRun(cfg, Init(cfg), steps) && NoCrash(steps) && Settled(Run(cfg, Init(cfg), steps))
    ensures var sh := Run(cfg, Init(cfg), steps).sh;
            forall i :: 0 <= i < |sh.db.log| ==> Published(sh, sh.db.log[i])
  {
    var s := Run(cfg, Init(cfg), steps);
    RunCovers(cfg, Init(cfg), steps);
    NobodyCarries(s);
    forall i | 0 <= i < |s.sh.db.log| ensures Published(s.sh, s.sh.db.log[i]) {
      assert Covered(s, s.sh.db.log[i]);
    }
  }
}

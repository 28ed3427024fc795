/** The token account of the platform, traced back to the chats of the agent loop. */
module Chats {
  import opened Models
  import opened Database
  import opened History
  import opened System
  import opened Accounting
  import Loop = AgentLoop
  import opened Transcript

  /** How the agent loop of one attempt was run. */
  datatype Play<!S> = Play(world: Loop.World<S>, stops: nat -> Option<Reason>, llm: nat -> Loop.Reply, maxSteps: int,
                           prompt: string, box: S, oomKilled: bool, artifacts: seq<string>)

  /** The report of the attempt, given what the reaper had decided. */
  function Outcome<S>(p: Play<S>, stop: Option<Reason>): Option<Report> {
    ReportOf(Loop.RunSpec(p.world, p.stops, p.llm, p.maxSteps, p.prompt, p.box).1, stop, p.oomKilled, p.artifacts)
  }

  /** The tokens of every chat that the loop made. */
  function ChatTokens<S>(p: Play<S>, name: string): int {
    if name == "prompt_tokens" || name == "completion_tokens"
    then Transcript.Spent(p.llm, name, |Loop.RunSpec(p.world, p.stops, p.llm, p.maxSteps, p.prompt, p.box).0.asked|)
    else 0
  }

  type Plays<!S> = (TaskId, nat) -> Play<S>

  /** If the step ends an agent loop, it reports the outcome of that attempt's play. */
  ghost predicate Plausible<S(!new)>(s: State, step: Step, play: Plays<S>)
    requires Enabled(s, step)
  {
    step.WorkerStep? && step.a.Conclude? ==>
      var me := s.workers[step.w];
      Outcome(play(me.task.id, me.task.attempt), me.stop) == Some(step.a.report)
  }

  ghost predicate Genuine<S(!new)>(cfg: Config, s: State, steps: seq<Step>, play: Plays<S>)
    requires IsRun(cfg, s, steps)
    decreases |steps|
  {
    steps != [] ==> Plausible(s, steps[0], play) && Genuine(cfg, Next(cfg, s, steps[0]), steps[1..], play)
  }

  /** The tokens that a step charges to `t`, taken from the chats of the attempt. */
  ghost function ChatBill<S(!new)>(s: State, step: Step, play: Plays<S>, t: TaskId, name: string): int
    requires Enabled(s, step)
  {
    match step
    case WorkerStep(w, a) =>
      var me := s.workers[w];
      if Bills(me, a) && me.task.id == t then ChatTokens(play(t, me.task.attempt), name) else 0
    case _ => 0
  }

  ghost function ChatsBilled<S(!new)>(cfg: Config, s: State, steps: seq<Step>, play: Plays<S>, t: TaskId,
                                      name: string): int
    requires IsRun(cfg, s, steps)
    decreases |steps|
  {
    if steps == [] then 0
    else ChatBill(s, steps[0], play, t, name) + ChatsBilled(cfg, Next(cfg, s, steps[0]), steps[1..], play, t, name)
  }

  /** The usage that a worker is about to charge is that of its chats. */
  ghost predicate OwesChats<S(!new)>(me: Worker, play: Plays<S>) {
    me.Attempting? && me.stage.UsageDue? ==>
      forall name :: Tokens(me.stage.usage, name) == ChatTokens(play(me.task.id, me.task.attempt), name)
  }

  ghost predicate AllOwe<S(!new)>(s: State, play: Plays<S>) {
    forall w :: w in s.workers ==> OwesChats(s.workers[w], play)
  }

  /** A report with usage carries the tokens of all chats of its loop. */
  lemma OutcomeCounts<S(!new)>(p: Play<S>, stop: Option<Reason>, name: string)
    requires Outcome(p, stop).Some? && Outcome(p, stop).value.usage.Some?
    ensures Tokens(Outcome(p, stop).value.usage.value, name) == ChatTokens(p, name)
  {
    UsageIsTheSum(p.world, p.stops, p.llm, p.maxSteps, p.prompt, p.box);
  }

  lemma MoveOwes<S(!new)>(self: WorkerId, cap: int, sh: Shared, me: Worker, a: Action, play: Plays<S>)
    requires WorkerCan(sh, me, a) && OwesChats(me, play)
    requires a.Conclude? ==> Outcome(play(me.task.id, me.task.attempt), me.stop) == Some(a.report)
    ensures OwesChats(WorkerMove(self, cap, sh, me, a).1, play)
  {
    if a.Conclude? && a.report.usage.Some? {
      forall name ensures Tokens(a.report.usage.value, name) == ChatTokens(play(me.task.id, me.task.attempt), name) {
        OutcomeCounts(play(me.task.id, me.task.attempt), me.stop, name);
      }
    }
  }

  lemma StepOwes<S(!new)>(cfg: Config, s: State, step: Step, play: Plays<S>)
    requires Enabled(s, step) && Plausible(s, step, play) && AllOwe(s, play)
    ensures AllOwe(Next(cfg, s, step), play)
    ensures forall t, name :: ChatBill(s, step, play, t, name) == Bill(s, step, t, name)
  {
    if step.WorkerStep? {
      assert OwesChats(s.workers[step.w], play);
      MoveOwes(step.w, cfg.cap, s.sh, s.workers[step.w], step.a, play);
    }
  }

  lemma {:induction false} RunOwes<S(!new)>(cfg: Config, s: State, steps: seq<Step>, play: Plays<S>, t: TaskId,
                                            name: string)
    requires IsRun(cfg, s, steps) && Genuine(cfg, s, steps, play) && AllOwe(s, play)
    ensures ChatsBilled(cfg, s, steps, play, t, name) == Billed(cfg, s, steps, t, name)
    decreases |steps|
  {
    if steps != [] {
      StepOwes(cfg, s, steps[0], play);
      RunOwes(cfg, Next(cfg, s, steps[0]), steps[1..], play, t, name);
    }
  }

  /** In any run whose attempts end as their agent loops do, the usage of a task is the sum,
      over the attempts whose worker reached `add_usage`, of the tokens of every chat made
      in that attempt, even if its terminal write lost; and no attempt counts twice. */
  lemma UsageIsAllChats<S(!new)>(cfg: Config, steps: seq<Step>, play: Plays<S>, t: TaskId, name: string)
    requires IsRun(cfg, Init(cfg), steps) && Genuine(cfg, Init(cfg), steps, play)
    ensures Balance(Run(cfg, Init(cfg), steps).sh.db, t, name) == ChatsBilled(cfg, Init(cfg), steps, play, t, name)
    ensures forall n :: BillCount(cfg, Init(cfg), steps, t, n) <= 1
  {
    UsageOfRun(cfg, steps, t, name);
    RunOwes(cfg, Init(cfg), steps, play, t, name);
  }
}

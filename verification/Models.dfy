/** The vocabulary of core/models.py: task rows, events and their payloads.

    Timestamps are left out; a JSON object that the platform only stores and
    forwards is kept as its text. */
module Models {

  datatype Option<+T> = None | Some(value: T)

  datatype TaskId = TaskId(hex: string)
  datatype WorkerId = WorkerId(name: string)
  datatype Token = Token(hex: string)

  datatype Status = Queued | Running | Succeeded | Failed | Cancelled

  predicate IsTerminal(s: Status) {
    s.Succeeded? || s.Failed? || s.Cancelled?
  }

  datatype Reason =
    | ModelError | ToolError | SandboxOom | TimedOut | MaxSteps | RetriesExhausted | UserCancelled

  function ReasonName(r: Reason): string {
    match r
    case ModelError => "model_error"
    case ToolError => "tool_error"
    case SandboxOom => "sandbox_oom"
    case TimedOut => "timeout"
    case MaxSteps => "max_steps"
    case RetriesExhausted => "retries_exhausted"
    case UserCancelled => "cancelled"
  }

  datatype EventKind = JobStarted | LlmMessage | ToolCall | ToolResult | JobCompleted | JobFailed

  /** The two kinds that close a task's event stream. */
  predicate EndsJob(k: EventKind) {
    k.JobCompleted? || k.JobFailed?
  }

  /** Token counts by name; a name that is absent counts as zero. */
  type Usage = map<string, int>

  function Tokens(u: Usage, name: string): int {
    if name in u then u[name] else 0
  }

  /** `artifacts` is present exactly in the payloads that a worker passes to `finish`. */
  datatype Payload =
    | Body(json: string)
    | End(status: Status, reason: Option<Reason>, summary: Option<string>,
          usage: Option<Usage>, artifacts: Option<seq<string>>)

  datatype Task = Task(
    id: TaskId,
    prompt: string,
    status: Status,
    attempt: nat,
    maxAttempts: int,
    workerId: Option<WorkerId>,
    failureReason: Option<Reason>,
    resultSummary: Option<string>,
    usage: Usage,
    idempotencyKey: Option<string>,
    cancelRequested: bool)

  datatype Event = Event(id: nat, taskId: TaskId, attempt: nat, kind: EventKind, payload: Payload)

  predicate Closes(e: Event) {
    EndsJob(e.kind)
  }

  lemma Associative<T>(a: seq<T>, b: seq<T>, c: seq<T>)
    ensures (a + b) + c == a + (b + c)
  {
  }
}

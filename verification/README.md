# A verified model of the coding-agent platform

The platform runs agent tasks for clients. SQLite keeps the truth: task rows and an
append-only event log, changed only by compare-and-swap updates. Redis keeps a work queue,
leases and event channels, all of which may be lost at any moment. Workers poll, repair,
claim and run tasks; the API answers requests and streams a task's events; a client follows
the stream and reconnects. This project models that behaviour in Dafny and proves what holds
in every interleaving.

`dafny verify dfyconfig.toml` checks everything.

## How the model is laid out

| file | what it holds |
|---|---|
| `Models`, `Database` | rows, events, payloads; each store call as a function on the whole database |
| `Store`, `Bus` | the classes of core/store.py and core/queuebus.py, updated in place |
| `Reconcile`, `Endpoints` | the repair pass, `poll_once` up to the claim, and the API requests as methods, with nothing else running |
| `History` | any sequence of store calls, whoever makes them: the words of status changes, the terminal event, idempotency keys |
| `System` | the transition system: workers with program counters, API requests, lost leases, wiped or damaged queues, crashes between any two commands |
| `SystemProof`, `Guarantees` | its inductive invariant, and what follows for every run |
| `Publishing`, `Carried`, `Emissions` | no event is published twice and, unless a worker dies, none is forgotten; a live stream has no gap exactly when publishing is in order; the log of an attempt is what was emitted in it |
| `Cancelling` | a cancel request takes effect: what the reaper saw is what the attempt ends with |
| `Rows`, `Leases`, `Queueing` | what a row holds and who may change it; the leases between their owners; the order of the queue |
| `Accounting`, `Chats`, `Bills`, `Overshoot` | token accounts and submissions over whole runs, traced back to the chats; the concurrency cap |
| `Blocks`, `Undisturbed`, `Recovery` | stretches of a run in which one worker moves: a repair pass, a poll; and crash recovery, made of them |
| `Stocked`, `Anomalies` | runs that show what can happen: a gap in a live stream, retries used up, a late event, a rival's lease deleted |
| `Limits` | exactly when a terminal event is the last one, and a worker deletes no lease but its own |
| `Stream`, `Decimals`, `Wire`, `Rendering` | the event stream, its text on the wire, the parser, how the client shows an event |
| `Follow`, `Reconnects` | the reconnecting client, and exactly how many connections it makes |
| `AgentLoop`, `Transcript`, `Exits`, `Replay` | `run_agent` with its providers, what the model is asked, what it emits, how it ends, and record/replay |
| `Outcomes` | from the agent loop through the report to the row and the terminal event |

A step of the transition system is one store call or one Redis command; the two commands of
`release_lease` are two steps. A worker that crashes, or out of whose `poll_once` an exception
escapes, goes back to the top of its loop and leaves its lease behind. `RedisLoss` lets any
leases vanish and any ids appear in or vanish from the queue. Nothing is assumed about
fairness, about the order in which processes move, or about lease tokens being distinct.

Five statements one might expect are false of the code; each has a run that breaks it, and
the exact condition is proved instead:

- `max_concurrency` is not a hard limit. `Overshoot.CapHoldsIff`: all runs respect it exactly
  when there is at most one worker (or no slot). `Overshoot.BoundIsReached` constructs, for
  every positive cap and every set of workers, a run that exceeds it by the number of workers
  minus one: tasks are submitted, workers poll and die after their claims, which leaves their
  leases behind, and nothing is lost in Redis. (Without deaths a live worker holds at most one
  lease.) `Overshoot.OvershootIsBounded` shows that no run does worse.
- A live stream can lose events. `Publishing.GapFreeIff`: in any run, no connection to a task's
  stream that the server can have had, from the submission on, has a gap exactly when the
  events of the task were published in id order with none skipped. `Anomalies.GapHappens` is
  a run in which they were not, a crash between append and publish, and
  `Anomalies.StreamLoses` the connection, opened right after the submission and asking for
  everything, that receives the second event and never the first. A client of a finished task
  is not affected: `Follow.ClientSeesTheLog` and `Follow.FinishedIsSeen` assume nothing about
  publishing for connections whose snapshot saw the end.
- A terminal event need not be the last of its task: a stale worker's `append_event` has no
  guard (`Anomalies.EventAfterTheEnd`). `Limits.EndIsLastIff`: it is the last in all runs
  exactly when there is at most one worker (or no slot). `Limits.StreamIsClosedIff`, state by
  state: once a task is over, nothing will ever be added to its stream exactly when no worker
  is still in the emitting part of an attempt at it.
- `release_lease` may delete a rival's lease between its two commands
  (`Anomalies.RivalLeaseDeleted`), a window that the comment at core/queuebus.py:37-38 calls
  negligible. `Limits.OwnLeaseIff`: in all runs it deletes nothing but its own lease exactly
  when there is at most one worker (or no slot).
- A repeated key does not always return the first task: an empty key is not looked up, and
  the insert then violates the UNIQUE column (`Accounting.EmptyKeyFails`).
  `History.Resubmission` has the exact condition: the key is not empty.

## Model

| member | source | states |
|---|---|---|
| Guarantees.ExactlyOnce | core/store.py:126-178 | in any run, over any interleaving, a terminal task has exactly one terminal event, which tells its status and reason, any other task has none; and whatever follows, the outcome and that event stay as they are |
| Guarantees.Fencing | core/store.py:99-178 | the successful status changes of a task over a whole run are (claim requeue)* followed by nothing, claim, claim finish, claim fail_exhausted or cancel_queued; attempt numbers count 1, 2, 3, ... so no claim and no exit of an attempt occurs twice; the word determines the row's status and attempt |
| Guarantees.NeverStuck | worker/reconcile.py:14-19 | in every reachable state a queued task has an attempt left and a running one is within its limit; from there a task changes status at most twice its maximum of attempts |
| Guarantees.HonestHistory | worker/attempt.py:40-58 | per attempt at most one `job.started`, before every other non-terminal event, and the event of `finish` after all of them, even with stale workers; no event of any kind is ahead of its row; a worker's `cancelled` implies a request |
| Cancelling.StopsForWhatWasSeen | worker/attempt.py:24-38 | in any run, for the terminal event that an attempt's own worker wrote: if its reaper fired while the row was flagged, the attempt ran through by itself or the task is `cancelled` for `cancelled`; if it fired while it was not, it ran through or failed for `timeout`; and these outcomes occur in no other case |
| Cancelling.WillStopForWhatWasSeen | worker/attempt.py:26-38 | the stop reason of a worker on an attempt is `cancelled` exactly if its reaper fired and found the flag, `timeout` exactly if it fired and did not |
| Cancelling.RowTellsWhatWasSeen | worker/attempt.py:60-71 | a row that says `timeout` had an attempt whose reaper fired without a flag; a `cancelled` one had one that found it, or was withdrawn while queued |
| Cancelling.CancelIsHonoured | worker/attempt.py:24-35 | from any reachable state in which a worker is at an attempt that is not stopped, on a flagged row that still runs it, steps of that worker alone, without a crash, end the row `cancelled` |
| Cancelling.AnsweredCancelIsHeeded | api/main.py:66-78 | a cancel request for an existing task, made at any moment of any run, has ended the task or set its flag by the time it is answered, whatever happens meanwhile |
| Carried.LoggedIsPublishedOrCarried | worker/attempt.py:40-42 | in every run without a worker's death each logged event is published, or exactly one process carries it to be published next, never both |
| Carried.AllPublished | worker/attempt.py:91-92 | so when all workers are at the top of their loop and all requests answered, every row of the log has been published |
| Emissions.LogIsWhatWasSaid | worker/attempt.py:40-50 | in any run the non-terminal events of an attempt in the log are, in order, with kind and payload, exactly its `job.started` and what its agent loop emitted |
| Outcomes.ReportIsStored | worker/attempt.py:55-92 | in any run whose attempts end as their agent loops do: the terminal event that a worker wrote tells status, reason, summary, usage and artifacts of what the loop of that attempt came to, and the row, for ever, its status, reason and summary |
| Outcomes.AnswerIsStored | agent/loop.py:80-89 | end to end: a succeeded task has, in its row and its one terminal event, the text of the last answer that the model gave in its last attempt |
| Leases.LeasesExclude | core/queuebus.py:32-45 | in any run without deaths and expiries each lease is held under its token by a worker, a worker that holds one finds it there, and no two hold one for the same task |
| Leases.NoLeaseLeaks | worker/main.py:20-30 | so none is left when everything has settled |
| Leases.LiveLeaseIsNotTakenOver | core/queuebus.py:32-34 | a lease that a step leaves in place keeps its token, whatever the step |
| Queueing.QueueIsFifo | core/queuebus.py:17-22 | in any run in which Redis loses nothing, what the API and the repair passes put into the queue is, in order, what the workers took from it followed by what is still there |
| Rows.CreatedAsSubmitted | core/store.py:76-91 | a submission is answered with a new task exactly if the id is free and no row has the key; the row then has, field by field, what was submitted and nothing else; the other rows and the log are unchanged; any other answer changes nothing |
| Rows.SubmissionNeverChanges | core/store.py:99-213 | no sequence of store calls changes a row's id, prompt, maximum of attempts or key |
| Rows.OnlyWritersChange | core/store.py:99-213 | any sequence of calls leaves a field of a row as it is unless it contains, for that task, one of the calls that may write the field |
| Rows.PromptReachesEveryStart | worker/attempt.py:49-56 | in any run, every `job.started` of a task, and every worker on it, carries the prompt that was submitted |
| Rows.RowNamesItsWorker | core/store.py:99-155 | in any reachable state a queued row names no worker and a running one does; a worker on the attempt that a row runs is the one it names |
| Guarantees.PublishedIsPersisted | worker/attempt.py:40-42 | everything ever published is the persisted row with that id |
| Guarantees.RunIsCalls | worker/main.py:12-30 | the database of a run is what its store calls made of it, and each requeue and each fail_exhausted among them passes the guard of the repair pass although it acts on a stale snapshot |
| SystemProof.StepKeeps | worker/attempt.py:11-93 | every step of every process keeps the invariant: soundness of the rows and the log, each process's local assertion, and that no two workers hold the same attempt |
| SystemProof.CallIsLicensed | worker/attempt.py:40-92 | each store call a worker makes is justified by its own local assertion (right attempt, started before, not yet finished, cancel only on request) |
| History.ExactlyOneEnding | core/store.py:126-178 | exactly-once termination for any sequence of store calls with arbitrary stale arguments |
| History.TerminalIsForever | core/store.py:126-178 | no call changes the outcome of a terminal row or adds a terminal event to it |
| History.WordIsLegal | core/store.py:99-178 | from any row, any calls write a word of the language that starts at that row, and the word accounts for the new row |
| History.WholeHistory | core/store.py:76-178 | the same from a task's creation on |
| History.HistoryOf | core/store.py:99-178 | the word splits into retries and one last leg, with strictly rising attempt numbers on each side |
| History.AttemptsNeverReturn | core/store.py:99-105 | in such a word no two claims and no two exits carry the same attempt number |
| History.RankFalls | worker/reconcile.py:14-19 | every successful status change strictly lowers the rank 2*(max-attempt) plus 2 when running, 1 when queued |
| History.ChangesAreBounded | worker/reconcile.py:14-19 | so a task with at least one attempt changes status at most twice its maximum of attempts |
| History.Resubmission | core/store.py:76-91 | after any calls, a second submission under a stored key changes nothing and returns that task, exactly when the key is not empty; otherwise the insert fails |
| Overshoot.OvershootIsBounded | worker/main.py:14-22 | leases plus workers past the cap check never exceed cap + workers - 1; one worker respects the cap |
| Overshoot.BoundIsReached | worker/main.py:14-22 | for every positive cap and every non-empty set of workers some run reaches exactly that bound: submitted tasks, polls that die after the claim, nothing lost in Redis |
| Overshoot.CapHoldsIff | worker/main.py:14-16 | a cap that is not negative holds in all runs if and only if there is at most one worker or the cap is zero |
| Chats.UsageIsAllChats | worker/attempt.py:85-86 | over any run whose attempts end as their agent loops do, a task's usage is the sum of the tokens of every chat of the attempts that reached `add_usage`, lost terminal writes included, and no attempt is charged twice |
| Bills.ChargedAsTold | worker/attempt.py:85-90 | in any run, what an attempt with a terminal event of its own was charged is the usage that this event tells, nothing if it tells none |
| Accounting.UsageOfRun | core/store.py:199-207 | the same account for whatever usage the attempts report |
| Accounting.BilledOnce | worker/attempt.py:85-92 | from any state satisfying the invariant, an attempt is charged at most once, and not at all once its worker is past that call |
| Accounting.OneTaskPerKey | api/main.py:52-60 | once a run stored a task under a key, no other task ever holds it, and submitting it again has no effect on database, queue or events |
| Accounting.EmptyKeyFails | core/store.py:78-89 | two submissions under the empty key: the first is stored, the second fails and changes nothing |
| Accounting.ApiEnqueuesOnce | api/main.py:56-57 | in any run the API pushes a given task at most once |
| Accounting.SubmittedIsQueued | api/main.py:52-60 | in any run, a request that stored a task is answered only after the task was put into the queue, behind all others |
| Recovery.CrashesTerminate | worker/main.py:12-30 | from any reachable state with a slot and at least one attempt per task: more polls than the ranks (twice), the queue entries and the lost tasks add up to end every task, if leases expire before each poll; whichever workers poll, whatever the queue holds, however the attempts go or die |
| Recovery.PollMakesProgress | worker/main.py:12-30 | one such poll, step by step of the transition system (pass, cap check, dequeue, lease, claim, attempt), lowers that sum until all tasks are over |
| Recovery.RecoveryIsPossible | worker/reconcile.py:4-9 | from every such state a run in which one worker crashes in every attempt, and leases expire, ends every task |
| Recovery.FreshTaskExhausts | worker/main.py:12-30 | after more such polls than the work adds up to, over the whole run: a task of which no attempt finished and which nobody cancelled while queued has failed with retries_exhausted, requeued after each attempt but the last and claimed exactly max_attempts times |
| Guarantees.ExhaustedMeans | core/store.py:157-166 | in any reachable state a row says retries_exhausted exactly when its last change was fail_exhausted, and then its history is (claim requeue) for all attempts but the last, claim max, fail_exhausted max |
| Guarantees.CrashedTaskExhausts | worker/reconcile.py:14-22 | a task that is over although no attempt finished and nobody withdrew it has exactly that history |
| History.ExhaustsAtMax | worker/reconcile.py:14-19 | under any guarded calls an attempt is failed as exhausted only if it is the last one that the row allows |
| Anomalies.RetriesRunOut | worker/reconcile.py:18-22 | a run in which the worker dies in both attempts that the API grants and the task fails with retries_exhausted |
| Reconcile.Reconcile | worker/reconcile.py:3-28 | from any tables and any Redis contents: exactly the unleased running tasks are requeued or failed by attempt < max_attempts, each failed one gets exactly one terminal event, which is published, exactly the requeued and the missing tasks are pushed, once each, and the three counters are exact |
| Reconcile.RepairRunning | worker/reconcile.py:11-22 | the first loop, for any order of the rows |
| Reconcile.RepushQueued | worker/reconcile.py:23-27 | the second loop pushes exactly the queued tasks that the list lacked |
| Reconcile.RepairOne | worker/reconcile.py:12-22 | one row, stale or not: left, requeued and pushed, or failed and published |
| Reconcile.QuietPass | worker/reconcile.py:3-28 | where running tasks are leased and queued ones queued, a pass changes nothing and counts zeros |
| Reconcile.PassRepairs | worker/reconcile.py:4-9 | after a pass every running task is leased and every queued task is in the queue; rows that were not orphaned are unchanged |
| Reconcile.SecondPassIsIdle | worker/reconcile.py:3-28 | an immediate second pass changes nothing and reports zeros |
| Undisturbed.UndisturbedPass | worker/reconcile.py:3-28 | the single steps of a worker of the transition system, if nobody disturbs them, make up such a pass and touch no lease |
| Undisturbed.AloneIsRun | worker/main.py:12-13 | those steps are a run of the whole platform in which only that worker moves |
| Undisturbed.PassCanBeMade | worker/reconcile.py:3-28 | from every state an undisturbed worker can go through a whole pass |
| Endpoints.PollOnce | worker/main.py:12-25 | a pass, then: with a free slot the oldest entry is taken, and it is claimed under a new lease exactly when it had none and its task can be claimed; otherwise no row and no lease changes |
| Endpoints.TakeNext | worker/main.py:14-25 | the part after the pass |
| Endpoints.PollFindsWork | worker/main.py:12-19 | as long as a task is queued, the queue after the pass of a poll holds it |
| Endpoints.CreateTask | api/main.py:52-60 | stores and pushes a new task, or returns the existing one and changes nothing |
| Endpoints.CancelTask | api/main.py:66-78 | afterwards the task is over or flagged: a queued one ends at once with its one event, a running one is only flagged, one that is over is left alone, no other row changes |
| Stream.StreamEvents | api/main.py:87-109 | what is sent, chunk by chunk: the history, then, unless it ends the job, a keepalive for each timed-out poll and a frame for each message above the last id sent, up to the first terminal one; the server closes exactly when a terminal event was sent |
| Stream.FramesOfLive | api/main.py:95-109 | the frames among the live chunks are exactly the messages that get through |
| Stream.EachPollSends | api/main.py:95-109 | poll by poll, until a terminal event was sent: one that timed out adds one keepalive, one with a message adds its frame exactly if its id is above all that was sent; afterwards nothing is added |
| Stream.HistoryOrdered | core/store.py:192-197 | the history is exactly the task's rows above `after`, each once, in id order |
| Stream.HandoffIsComplete | api/main.py:80-109 | for events published in order, and because subscription precedes the snapshot and publishing follows insertion, a connection delivers, up to the first terminal event, every event above `after` persisted before the snapshot or published before the cut; no gap, no repeat, nothing else |
| Stream.StreamIsOrdered | api/main.py:87-109 | whatever the publishers do, the ids strictly increase, all above `after`, and each event is the persisted row with that id, of that task |
| Stream.DeliveredIff | api/main.py:98-109 | a live message is delivered if and only if its id is above all before it and no such earlier one ended the job |
| Stream.ViewOfRun | api/main.py:84-88 | in every run, subscribing, reading and being cut at any three moments gives a connection of the kind these theorems are about |
| Publishing.NoEventTwice | worker/attempt.py:40-42 | in any run no event is published twice |
| Publishing.GapFreeIff | api/main.py:80-109 | in any run: no connection to the task's stream that the server can have had (subscribed while the task exists, read, cut, at any moments of the run) has a gap, if and only if its events were published in id order with none skipped |
| Publishing.EarlyView | api/main.py:84-86 | for every message of a task the server can have had a connection opened before any event of it and cut right after that message |
| Anomalies.GapHappens | worker/attempt.py:40-42 | a run in which only leases expire and after which the events of a task have not been published in order: a crash between append and publish, then a second attempt |
| Anomalies.StreamLoses | api/main.py:102-105 | in that run the client that connects right after the submission and asks for everything receives the second event and never the first |
| Anomalies.EventAfterTheEnd | core/store.py:122-124 | a run in which a stale worker appends an event after the terminal event of its task |
| Limits.EndIsLastIff | core/store.py:122-124 | in all runs the terminal event of a task is its last, if and only if there is at most one worker or no slot |
| Limits.StreamIsClosedIff | worker/attempt.py:40-42 | in any reachable state in which a task is over: no later run adds an event of it, if and only if no worker is in the emitting part of an attempt at it |
| Anomalies.RivalLeaseDeleted | core/queuebus.py:43-45 | a run in which the DELETE of one worker removes the lease that another has just taken under another token |
| Limits.OwnLeaseIff | core/queuebus.py:43-45 | in all runs a DELETE removes nothing or the lease with the worker's own token, if and only if there is at most one worker or no slot |
| Wire.ParseSseLines | cli/main.py:12-23 | the generator as a loop over lines, errors included |
| Wire.InterruptedRoundTrip | api/main.py:28-29 | from any prefix of the lines of any frames and keepalives the parser yields exactly the events whose blank line arrived, ids, types and data unchanged, in order, and never breaks |
| Wire.CutAnywhere | cli/main.py:12-23 | the same for a response text cut after any character |
| Wire.CompleteIsPrefix | cli/main.py:12-23 | what is yielded is a prefix of what was sent; all of it if nothing was cut |
| Rendering.ShownAsSent | cli/main.py:53-76 | wherever a response is cut, every event that arrives is shown by its type's text as the kind of event that was logged, none as unknown |
| Decimals.ParseDec | cli/main.py:16 | an id printed in decimal is read back as the same number |
| Decimals.HeaderRoundTrip | cli/main.py:36 | any last id that the client sends, negative ones included, is the number that the server reads |
| Follow.FollowEvents | cli/main.py:25-51 | the reconnect loop yields what the connections bring, one after another, each opened with the last id seen |
| Follow.ReadConnection | cli/main.py:35-44 | one connection: yields up to the first terminal event and says whether it ended, dropped or raised |
| Reconnects.HowItEnds | cli/main.py:31-51 | at most one plus `max_reconnects` connections are made (one, if it is negative), each at the last id that the one before brought; the client gives up exactly if all of these drop, completes or aborts exactly if the first that does not drop brings the end or raises, and yields what they brought, one after another |
| Reconnects.OnlyTheseCount | cli/main.py:45-48 | two servers that agree on the first one plus `max_reconnects` connections give the same output and ending |
| Reconnects.RefusalAborts | cli/main.py:35-37 | an error status aborts at once and keeps what came before |
| Follow.ConnectionReads | cli/main.py:35-44 | what the client reads from one connection, cut anywhere, is a first part of the frames sent, up to the first terminal event |
| Follow.OwedResumes | cli/main.py:36-39 | after a part of what is owed, the rest is exactly what is owed from the last id on |
| Follow.ResumeComposes | cli/main.py:25-51 | for any number of drops at any character, if each connection the client can open sends a first part of what is owed, the concatenation is a first part of one uninterrupted run, all of it when the client completes; it never aborts, and gives up only without having seen the end |
| Follow.OneGoodConnectionSuffices | cli/main.py:45-48 | if one connection within the limit is complete at whatever id the client can present to it, the client completes |
| Follow.DeliveredIsOwed | api/main.py:87-109 | each connection sends a first part of the log slice from its last id; all of it, with no assumption on publishing, if the job had ended at the snapshot |
| Follow.ExitCodeIsStatus | cli/main.py:78-85 | a completed client exits with 0, 2 or 1 exactly when the stored status is succeeded, cancelled or failed |
| Follow.ClientSeesTheLog | cli/main.py:87-94 | over any connections to a reachable state of the platform, in-order publishing or, connection by connection, a snapshot that saw the end: the client yields a first part of the persisted slice from `from_id` to the first terminal event, the whole of it if it completes, and then the exit code tells the stored status |
| Follow.FinishedIsSeen | cli/main.py:25-51 | the client of a finished task completes if one connection within the limit was opened after the end and is not cut, whatever was published |
| AgentLoop.RunAgent | agent/loop.py:60-129 | the loop in place, for a model, a recorder or a replay, ends as the specification says, leaves the sandbox where it says, and a recorder holds exactly the answers it let through |
| AgentLoop.RunTools | agent/loop.py:100-126 | the tool loop: check, call event, one of the four payloads, result event, message |
| AgentLoop.TakeTurn | agent/loop.py:71-98 | one step: check, chat, respond |
| AgentLoop.RecordingLlm.Chat | worker/record.py:26-35 | passes the answer on and records it, or raises on a malformed call and records nothing |
| AgentLoop.MockProvider.Chat | agent/mock.py:53-64 | answers the step under the cursor with ids of its own, and raises when the steps are used up |
| Transcript.TranscriptProtocol | agent/loop.py:71-129 | for any model, sandbox and stop: at every chat and in every returned outcome each assistant message with calls is followed at once by exactly its answers; the i-th tool message carries the payload of the i-th result event; calls and results alternate; a stop leaves no call open, a dead sandbox exactly one |
| Transcript.ToolsProtocol | agent/loop.py:100-126 | the same for the tool loop alone |
| Transcript.ModelIsAsked | agent/loop.py:62-98 | in any run the first chat gets the system prompt and the submitted prompt and nothing else; each later chat gets all that the one before got and what followed; after what a chat got stands its answer, its text with its calls, or, if it said nothing, an empty one and the nudge; the last is a prefix of the final messages |
| Exits.ExitIsExplained | agent/loop.py:71-129 | in any run every chat but the last calls tools or says nothing, and the last chat, the last check or the step limit explains the exit: a success is the last answer's own text, which is also the last message and the last event, final; the limit is met after exactly `max_steps` chats |
| Exits.TextsAreEmitted | agent/loop.py:80-98 | the message events of a run are, in order, exactly the stripped texts of its chats that are not empty, final exactly if the chat calls no tool |
| Exits.CallsAreRequested | agent/loop.py:100-105 | the calls announced are, in order, with id, name and arguments, a first part of those that the chats asked for; all of them if the loop returns |
| Exits.OnlyGoodCallsRun | agent/loop.py:106-122 | a tool runs exactly if the call is well formed and names one of the four; any other call leaves the sandbox alone and is answered with a failure |
| Exits.ReasonTellsCause | worker/attempt.py:55-71 | the report's reason, read backwards: `sandbox_oom` exactly if the sandbox died of it without a stop, `tool_error` exactly if it died otherwise without one, `cancelled` and `timeout` exactly if that stop ended the attempt; the summary says the same; usage exactly if the loop returned |
| Transcript.UsageIsTheSum | agent/loop.py:64-78 | the reported usage is the sum over all chats made, at most `max_steps` of them |
| Transcript.EveryReportConcludes | worker/attempt.py:55-72 | every outcome of an attempt is one that the transition system allows |
| Replay.ReplayReproduces | agent/mock.py:53-64 | replaying a successful recorded run from the same sandbox state gives the same outcome, usage, summary and final sandbox, the same events and messages but for call ids, and uses every recorded step exactly once |
| Replay.StepsAlike | agent/loop.py:71-129 | two runs whose replies agree wherever the first got an answer stay in step, from any pair of like states |
| Replay.AllAnswered | agent/loop.py:74-76 | in a successful run every chat got an answer |
| Replay.RecordedSteps | worker/record.py:31-34 | the recorder holds one step for each answer, in order |
| Replay.ReplayIdsDiffer | agent/mock.py:59 | replayed call ids are pairwise distinct over a whole replay |

## The classes behind them

Each method changes the fields of its object in place and is proved to do what the function of
the same name on the whole database says (for the store), or what the Redis command does (for
the bus). The theorems above are about those functions and commands.

| member | source | states |
|---|---|---|
| Store.TaskStore.CreateTask | core/store.py:76-91 | the new tables and the answer (created, existing or integrity error) |
| Store.TaskStore.FindKey | core/store.py:79-83 | finds the row with a key if and only if there is one |
| Store.TaskStore.Claim | core/store.py:99-110 | succeeds exactly on a queued row with an attempt left, and then increments the attempt |
| Store.TaskStore.AppendEvent | core/store.py:112-124 | appends one row with the next id, unguarded |
| Store.TaskStore.Finish | core/store.py:126-147 | changes row and log together, exactly when the row runs that attempt |
| Store.TaskStore.Requeue | core/store.py:149-155 | puts the row back exactly when it runs that attempt |
| Store.TaskStore.FailExhausted | core/store.py:157-166 | ends the row with its event exactly when it runs that attempt |
| Store.TaskStore.CancelQueued | core/store.py:168-178 | ends a queued row with an event of attempt 0 |
| Store.TaskStore.RequestCancel | core/store.py:180-186 | flags a row that is not terminal |
| Store.TaskStore.AddUsage | core/store.py:199-207 | adds the counts key by key |
| Store.TaskStore.EventsAfter | core/store.py:192-197 | the rows of the task above an id, in id order |
| Store.TaskStore.TasksWithStatus | core/store.py:209-213 | each row with the status exactly once, in no promised order |
| Bus.QueueBus.Enqueue | core/queuebus.py:17-18 | puts the id behind all others |
| Bus.QueueBus.Dequeue | core/queuebus.py:20-22 | takes the oldest id |
| Bus.QueueBus.AcquireLease | core/queuebus.py:32-34 | takes a free lease and never overwrites one |
| Bus.QueueBus.ReleaseLease | core/queuebus.py:43-45 | deletes the lease only if it holds the token, with no other client in between |
| Bus.QueueBus.RenewLease | core/queuebus.py:36-41 | answers whether the token still holds the lease |

## Left out

- Time: timestamps, time-to-live arithmetic, timeouts and poll intervals. A lease may vanish and a deadline may pass at any step. So the heartbeat thread is not a step: what it does is push an expiry back, and no proof rests on a lease being held.
- Processes end only by crashing: restarting a worker process, its startup cleanup of containers and the configuration are not modelled; a worker whose poll failed starts over.
- `run_attempt` appears as steps of the transition system (two threads and the loop interleaved), not as one method; artifact download, the transcript file and the containers in it are left out, and a failure in any of them is the crash step.
- Counting leases is one step, although SCAN may see a changing key space.
- SQLite and Redis themselves: a store call and a Redis command are atomic and event ids are assigned in commit order; an enqueue or publish that fails is a crash or a request that never moves again.
- JSON: an encoder and decoder that invert each other on events and print no line break (the module parameter `Faithful`); the server's and the client's decoders are the same.
- Wire.ParseSseLines: `int` is modelled on ASCII text (surrounding blanks, a sign, single underscores between digits); it also accepts other Unicode digits and blanks, and refuses numerals of more than 4300 digits. The server never prints any of these.
- The `after` query parameter, the default of a missing header and the 400 answer are left out.
- HTTP: an error status raises, any transport error and any clean end of a response drop the connection; a partial last line is discarded, and the client's pauses are left out.
- The sandbox is a deterministic state machine and its tools are a parameter, as is `strip_reasoning`; truncation, container calls, model retries and preflight are left out.
- The exact texts of error payloads that print Python values (the list of available tools, exception representations) are shortened.
- The trajectory file's header and the fixture hash: `ReplayReproduces` starts from the recorded steps and the same sandbox state.
- `emit` inside the agent loop always succeeds here; in the transition system the worker may crash at that point.
- The row converters, artifact listing and download, the web page, and what `render` prints after the marker of a line: they only format what is modelled.
- Tasks created with fewer than one attempt (no caller in the repository does so) can only wait for a cancel; statements about progress are for the others.

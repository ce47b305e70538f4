# Job dispatch between cloud and agents: a verified model

The cloud side keeps jobs in a store, waiting job ids in a queue, and known
agents with a running-jobs counter in a registry. An agent asks for work over
its connection; the gateway takes an id from the queue, writes the job's owner
and status, counts it and sends it. The agent runs the job on a worker of its
own, reports RUNNING and then an outcome, and the gateway applies the reports.
This project models that protocol and the agent's text, cache and placeholder
handling, and proves what holds of every run.

## How it is organised

Cloud, one class per Go type, each proved against functions on values:
`job_model.dfy`, `output_paths.dfy`, `job_store.dfy`, `job_queue.dfy`,
`registry.dfy`, `gateway.dfy`, `job_api.dfy`. A store, queue, presigning or
marshalling call may fail at any time and then has no effect; the clock and new
UUIDs come from outside too. All of this is the argument `world`, one answer per
program position.

Interleaving: `dispatch.dfy` is the step machine. A thread's position names the
next store, queue or registry call it makes, `Advance` is one such call, and any
number of connections and HTTP requests take turns. `UpdateStatus` is two steps,
its read and its write. `handlers.dfy` runs one thread alone to its end
(`Finish`); the methods of `gateway.dfy` and `job_api.dfy` are proved equal to
it, and it is proved to be one of the interleavings. On the machine:
`dispatch_tokens.dfy` (a job id is held once), `dispatch_conservation.dfy` (which
steps lose or strand a job), `dispatch_rows.dfy` (what happens to a row),
`dispatch_owners.dfy` (whom a row may name), `dispatch_capacity.dfy` (the
counter), `compensation.dfy` (what a failed assignment leaves behind),
`effects.dfy` (what an uninterrupted request or report comes to, in the columns of
the tables and without the machine).

The whole system: `protocol.dfy` adds a FIFO channel in each direction per agent
and the agents' accept, report and decrement steps; `protocol_flow.dfy` follows
each job's status and reports through both channels; `protocol_outcome.dfy` adds
that the row ends up showing the worker's last report; `protocol_room.dfy` is
about the free slot of an agent that has one. `protocol_runs.dfy` carries the
results about the step machine over to the whole system, and
`protocol_races.dfy` gives executions in which a side condition is dropped and
the result fails.

Agent: `agent_client.dfy` (accepting, running and reporting a job),
`agent_threads.dfy` (read loop, workers and request loop as separate threads,
every access to shared data a step), `utf8.dfy`, `placeholders.dfy`,
`input_cache.dfy`.

Runs are honest: an agent asks under its own id, and it may report anything
except on a row that names it as owner although the job was never sent to it. As
long as owners can be cleared that exception never arises
(`DispatchOwners.ProperRunsAreHonest`), and in the whole system, whatever fails,
honesty is proved (`ProtocolRuns.ExecutionProjects`). The results on tokens hold
of all runs.

## Where code and expectation part

- The two compensations that set a job back to PENDING after the ASSIGNED write
  (`cloud/internal/gateway/gateway.go:404` and `:454`) are refused by the
  transition table and their errors ignored. `Compensation.StrandsExactly`: a
  handler leaves its job ASSIGNED and unsent if and only if storing the output
  location or marshalling fails. The job is then without owner if and only if
  clearing the owner succeeds; otherwise it names an agent that was never told.
  `DispatchConservation.StepStrandsExactly` says the same of every step of every
  interleaving, `DispatchConservation.StrandedForever` that such a row never
  changes again, and `ProtocolRaces.MarshalErrorsStrandJobs` is an execution.
- An agent without room reports FAILED for the job it turns away
  (`agent/internal/client/client.go:386`), but ASSIGNED to FAILED is not in the
  table either. `ProtocolFlow.TurnedAwayStrands`: whatever else happens, such a
  job stays ASSIGNED to that agent in every later state.
- A failing read of a dequeued job drops its id
  (`cloud/internal/gateway/gateway.go:288-292`), and so do failures to put an id
  back or to enqueue a new one. `DispatchConservation.StepLosesExactly`: a PENDING
  job is lost by exactly these; `DispatchConservation.LostForever`: for good;
  `ProtocolRaces.UnreadJobsAreLost`: an execution. The comment at
  `cloud/internal/api/api.go:291-292` counts on recovery from the database, which
  nothing modelled here does.
- A heartbeat overwrites the counter (`cloud/internal/gateway/gateway.go:208`), a
  job may end while its agent counts as offline, and an owner may fail to be
  cleared. `DispatchCapacity.StepUpsetsExactly`: where the counter, up to the
  handler's lag, is the number of the agent's active jobs, a step makes it wrong
  if and only if it is a heartbeat of that agent with another value than the
  stored one, such a decrement, or such a failure behind the commit.
  `ProtocolRaces.HeartbeatsForgetJobs` is an execution with one such heartbeat.
- The request loop checks for room and sends in two steps. A request in between
  is harmless unless the agent's worker has reported an outcome and not yet freed
  its slot (`ProtocolRoom.JobsFindRoom`); one request at that time is enough for
  an agent with one slot to turn a job away
  (`ProtocolRaces.LateRequestsFindNoRoom`). So is one heartbeat that takes the
  gateway's count back (`ProtocolRaces.HeartbeatsFindNoRoom`).
- `handleJobStatus` compares the envelope's agent with the connection,
  `handleRequestJob` (`cloud/internal/gateway/gateway.go:230-239`) does not: a
  request under another id gets a job owned by and counted for that id, sent over
  the requester's connection. Runs with such requests are not honest; only
  `DispatchTokens.AtMostOneDispatch` and `DispatchTokens.TokensKept` cover them.
- Message and streams of a report are stored before the move of the status is
  checked (`cloud/internal/gateway/gateway.go:520-644`): a report whose move is
  refused still overwrites them, and since empty messages are not stored, a
  SUCCEEDED job keeps the message of an earlier report
  (`Effects.ReportRecorded`).
- `EnsureOutputPrefix` keeps a requested output key when a prefix was requested
  as well, even if the key lies elsewhere, and clears it otherwise.
- The agent logs that it uses stdout as output when the command leaves no output
  file (`agent/internal/client/client.go:799-806`), but uploads only an output
  file that exists and is not empty; `AgentClient.Uploaded` follows the code.
- Deleting `{input}` for a job without input can create a new `{output}`;
  `Placeholders.SubstitutionExact` gives the exact condition.

## Model

| member | source | states |
|---|---|---|
| DispatchTokens.AtMostOneDispatch | cloud/internal/gateway/gateway.go:270-465 | In every state of every interleaving, whatever fails: queue copies plus holders of an id are at most one, none once it was sent, and no two JobAssigned ever sent are for the same job |
| DispatchTokens.TokensKept | cloud/internal/queue/inmemory.go:23-47 | Each single step of any thread moves an id's token and never copies it |
| DispatchConservation.PendingJobsAreTracked | cloud/internal/gateway/gateway.go:275-322 | If no read of a dequeued job, requeue or enqueue fails, every PENDING job is in the queue once or in the hands of one thread, never both and never neither |
| DispatchConservation.StepLosesExactly | cloud/internal/gateway/gateway.go:288-322 | In any reachable state one step loses a PENDING job if and only if it is a failing read, requeue or enqueue of that job |
| DispatchConservation.LostForever | cloud/internal/api/api.go:288-294 | A PENDING job that is in no queue and no hands stays so, and PENDING, in every later state |
| DispatchConservation.StepStrandsExactly | cloud/internal/gateway/gateway.go:400-458 | In any reachable state one step strands a job so if and only if it ends the compensation of a failure behind the commit, whether or not the owner could be cleared |
| DispatchConservation.StrandedForever | cloud/internal/gateway/gateway.go:400-458 | A job that is ASSIGNED, unsent and in nobody's hands stays so, with its whole row, in every later state |
| DispatchRows.TerminalRowsFrozen | cloud/internal/job/store.go:340-362 | Over any honest run, with the status read and its write apart and any call failing: at most three status changes per job, and a terminal row never changes in any field |
| DispatchRows.RowsKept | cloud/internal/job/model.go:48-67 | One step of any thread keeps the row invariant and changes every row only along a legal transition |
| DispatchRows.SentMessagesAgree | cloud/internal/gateway/gateway.go:311-422 | Whatever was sent agrees with the row in every later state: command or request with its timeout narrowed to 32 bits, input, key, prefix, lease, owner, the key the upload URL was made for, and the attempt exactly if it fits 32 bits |
| DispatchRows.RowsWereRequested | cloud/internal/api/api.go:236-286 | Every stored job does, at any time, the work of a create request with its id |
| DispatchRows.OutputsNeverCollide | cloud/internal/gateway/gateway.go:328-339 | Any two messages ever sent for slash-free ids have different keys and upload URLs, and neither prefix lies in the other |
| DispatchRows.SuccessNeedsKey | cloud/internal/gateway/gateway.go:562-601 | A row turns SUCCEEDED only by a report with no key or the stored key |
| DispatchOwners.ProperRunsAreHonest | cloud/internal/gateway/gateway.go:489-512 | A run on which owners can be cleared and agents ask under their own id is honest, whatever they report: the owner check keeps away reports on jobs that were not sent to the reporter |
| DispatchOwners.AnyReportsFreeze | cloud/internal/gateway/gateway.go:489-528 | On interleaved runs on which owners can be cleared, whatever agents report: at most three status changes per job, and terminal rows never change |
| DispatchCapacity.CounterIsActiveJobs | cloud/internal/gateway/gateway.go:256-260 | On honest runs without a step that upsets the account: counter plus the handler's lag is the number of the agent's ASSIGNED and RUNNING jobs, the counter is positive whenever a decrement is due, and neither exceeds the limit unless the agent registers anew with a limit below its counter |
| DispatchCapacity.CapacityKept | cloud/internal/registry/registry.go:54-63 | Every step that does not upset the account keeps it and the row invariant, whoever takes it and whatever fails |
| DispatchCapacity.StepUpsetsExactly | cloud/internal/gateway/gateway.go:197-228 | Where the account is right, a step makes it wrong if and only if it is a heartbeat of the agent with another value than the counter, a failing clear of an owner behind the commit, or a decrement while the agent is offline |
| DispatchCapacity.StepLowersExactly | cloud/internal/registry/registry.go:33-51 | Where account and limit hold, a step that keeps the account breaks the limit if and only if the agent registers anew with a limit below its counter |
| Compensation.RollsBack | cloud/internal/gateway/gateway.go:312-387 | For every answer of the surroundings with a failure up to the ASSIGNED write: the exact final state. The row stays PENDING and as it was but for an attempt raised to 1 and an owner cleared, or left if that clear fails; the id goes to the queue tail unless that fails; nothing is sent or counted, no other row touched |
| Compensation.RestoresExactly | cloud/internal/gateway/gateway.go:351-387 | After such a failure the job is unowned and at the queue tail again if and only if the requeue, and the clear where one is made, succeed |
| Compensation.CommitsOrStrands | cloud/internal/gateway/gateway.go:389-464 | For every answer of the surroundings without such a failure the job ends ASSIGNED: owned, counted and sent if both later calls succeed; else unsent and uncounted, unowned unless the clear fails, requeued unless the requeue fails |
| Compensation.StrandsExactly | cloud/internal/gateway/gateway.go:400-458 | For every answer of the surroundings: ASSIGNED if and only if nothing fails up to the commit; ASSIGNED and unsent if and only if a call fails behind it; ASSIGNED and unowned if and only if, moreover, the clear of the owner succeeds |
| Handlers.PickExact | cloud/internal/gateway/gateway.go:270-309 | The dequeue loop stops at the first readable PENDING entry among five; what it skips is not that; it gives up only after five tries, at the end, or on a queue failure |
| Handlers.FinishPicks | cloud/internal/gateway/gateway.go:270-309 | The handler removes exactly that prefix of the queue, keeps the order of the rest, and goes on with exactly that job |
| Handlers.FinishIsInterleaving | cloud/internal/gateway/gateway.go:230-672 | A handler run alone is one of the interleavings: same data, same message, other threads untouched |
| Handlers.FinishFreezes | cloud/internal/gateway/gateway.go:467-672 | An uninterrupted handler freezes terminal rows and never moves a status back |
| Handlers.AnyMessageFreezes | cloud/internal/gateway/gateway.go:497-528 | An uninterrupted handler of any report whatever, also for a job never sent to that agent, and of any request freezes terminal rows and never moves a status back |
| Handlers.ReportsTouchOwnRow | cloud/internal/gateway/gateway.go:497-672 | Any report whatever touches at most the named row, only if it is the sender's, in that attempt and not terminal, never its claim or spec, and lets it succeed only with no key or the stored one |
| Effects.SendsExactly | cloud/internal/gateway/gateway.go:230-464 | A request is answered with a job if and only if the agent was heard from within 60 s, is not paused and below its limit, one of the first five entries is the first that can be read and is PENDING, the queue answers up to it, and no call from there to the send fails; an agent that is not eligible changes nothing |
| Effects.HandsOver | cloud/internal/gateway/gateway.go:311-464 | Then the message names that entry and carries its work, lease, attempt and its own jobs/id/attempt/ location; the row is the same but ASSIGNED, the agent's, with that lease, attempt and location; the agent is counted one more; nothing else changes |
| Effects.HeartbeatDecides | cloud/internal/gateway/gateway.go:244-260 | A heartbeat alone decides whether the next request is considered: only within a minute, unpaused, with fewer jobs than the limit |
| Effects.ReportRecorded | cloud/internal/gateway/gateway.go:489-671 | Column by column, for every answer of the surroundings: the message is stored if there is one, stdout and stderr under their own names on SUCCEEDED, FAILED and on RUNNING with output, the status by the table of moves, the counter only when the job thereby ends and its agent is heard of; nothing else, and nothing at all unless owner and attempt agree and the job has not ended |
| Gateway.Gateway.TakePending | cloud/internal/gateway/gateway.go:270-309 | The loop over five tries removes what PickExact says, and the test after it finds out exactly whether the loop was left by its break |
| Gateway.Gateway.HandleRequestJob | cloud/internal/gateway/gateway.go:230-465 | Store, queue, registry and outbox end as the step machine's thread leaves them, whatever the world answers; what it sends is appended to the connection's outbox, and an eligible agent finds the first waiting job there, agreeing with its row, exactly if nothing fails |
| Gateway.Gateway.HandleJobStatus | cloud/internal/gateway/gateway.go:467-672 | The same for reports: message and streams of one that is taken up arrive in their own columns; a report on the wrong connection changes nothing |
| Gateway.Gateway.HandleRegister | cloud/internal/gateway/gateway.go:153-195 | Connection, registry and outbox after registration, and nothing at all without an id |
| Gateway.Gateway.HandleHeartbeat | cloud/internal/gateway/gateway.go:197-228 | The heartbeat's values replace the stored ones, only on the agent's own connection |
| Registry.RegisteredIsSeen | cloud/internal/registry/registry.go:33-51 | A registered agent is seen for 60 s with what it said; a known one keeps its mood and counter, a new one is unpaused without jobs; others are unaffected |
| Registry.BeatenIsSeen | cloud/internal/registry/registry.go:54-63 | A heartbeat keeps a known agent seen for 60 s with the mood and count it gave; it makes nobody known |
| Protocol.SysKept | cloud/internal/gateway/gateway.go:88-135 | Each action keeps this of the whole system: the channels together hold exactly what was sent, in order, agents report only what they were sent, and the row invariant holds |
| Protocol.AgentsDecide | agent/internal/client/client.go:370-395 | A delivered job is taken in if and only if the agent is unpaused and below its limit, else FAILED is said; work is asked for under the same condition |
| ProtocolFlow.AcceptedJobsFlow | cloud/internal/job/model.go:48-62 | If in status handlers the reading of the job and the status's read and write succeed, and attempts fit 32 bits, whatever else fails: for every accepted job, stored status, reports in hand, reports on the way and reports to come form a legal path |
| ProtocolFlow.NoReportRefused | cloud/internal/gateway/gateway.go:467-672 | Hence no report of an accepted job is dropped, and the status written is the one reported |
| ProtocolFlow.OutcomeRecorded | agent/internal/client/client.go:398-544 | When a worker is gone and its reports are applied, the stored status is the reported one |
| ProtocolOutcome.OutcomeStored | cloud/internal/gateway/gateway.go:530-644 | If moreover the calls that store message and streams of this job's reports succeed, the row shows the worker's last report: status, attempt, stdout, stderr, its message if it has one, its key if it succeeded with one |
| ProtocolFlow.TurnedAwayStrands | agent/internal/client/client.go:383-388 | In every execution, whatever fails, a job turned away stays ASSIGNED to that agent in every later state |
| ProtocolRoom.JobsFindRoom | agent/internal/client/client.go:298-338 | An agent with one slot that is not paused never turns a job away, though requests may be sent late and final reports travel ahead of its decrement, unless it sends a request between a final report and the decrement, or a heartbeat of its takes the count back |
| ProtocolRuns.ExecutionProjects | cloud/internal/gateway/gateway.go:88-151 | What the gateway does in any execution of the whole system is an honest run of the step machine, step by step |
| ProtocolRuns.DeliveredOnce | agent/internal/client/client.go:370-395 | In every execution no job is delivered twice, to one agent or two, and for slash-free ids no two deliveries share an upload key |
| ProtocolRuns.WorkWasPosted | cloud/internal/gateway/gateway.go:411-449 | What an agent is given to do is what was posted under that id: command or request with its timeout narrowed to 32 bits, input, mode |
| ProtocolRuns.RequestedWorkArrives | cloud/internal/api/api.go:236-262 | From POST /api/jobs to the agent: what is handed out is what the request with that id asks for, field by field: command or trimmed URL and method, headers, body, timeout, mode, input key and its download URL |
| ProtocolRuns.CounterInExecutions | cloud/internal/registry/registry.go:54-63 | The counter's account holds in every execution of the whole system up to the first action that upsets it, and the limit up to the first that lowers it |
| ProtocolRuns.ActUpsetsExactly | cloud/internal/gateway/gateway.go:197-228 | In such an execution an action makes the account wrong if and only if it is one of those three |
| ProtocolRaces.LateRequestsFindNoRoom | agent/internal/client/client.go:308-338 | There is an execution, calm for the agent but for one request sent between a final report and the decrement, in which an agent with one slot turns a job away |
| ProtocolRaces.HeartbeatsForgetJobs | cloud/internal/gateway/gateway.go:208 | There is an execution, calm for the agent but for one heartbeat that takes the count back, that ends with counter 0 and an active job of the agent |
| ProtocolRaces.HeartbeatsFindNoRoom | cloud/internal/gateway/gateway.go:208 | There is an execution, calm for the agent but for one such heartbeat, in which an agent with one slot turns a job away |
| ProtocolRaces.UnreadJobsAreLost | cloud/internal/gateway/gateway.go:288-292 | There is an execution that ends with a PENDING job in no queue and no hands |
| ProtocolRaces.MarshalErrorsStrandJobs | cloud/internal/gateway/gateway.go:450-458 | There is an execution that ends with a job ASSIGNED, unowned and unsent, and nobody about to send it |
| JobModel.TransitionsClimb | cloud/internal/job/model.go:48-67 | Every legal transition climbs a rank of at most three, terminal exactly at the top |
| JobModel.RelocatedInOwnSubtree | cloud/internal/job/model.go:148-186 | Normalising the output location is idempotent and lands in the job's own subtree; a requested prefix survives exactly if it lies there, the requested key exactly if a prefix came with it |
| JobModel.SubtreesAreDisjoint | cloud/internal/job/model.go:148-186 | No job's output prefix lies in another job's |
| JobModel.JobRecord.EnsureOutputPrefix | cloud/internal/job/model.go:148-173 | The record ends as that function says |
| OutputPaths.KeysAreInjective | cloud/internal/gateway/gateway.go:328-339 | For slash-free ids an upload key determines job, attempt and extension |
| OutputPaths.PrefixesAreFree | cloud/internal/gateway/gateway.go:328-339 | For slash-free ids no output prefix is a prefix of another |
| OutputPaths.ItoaRoundTrip | cloud/internal/job/model.go:193-195 | Decimal text of an attempt reads back as the attempt and has no slash |
| Store.JobStore.UpdateStatus | cloud/internal/job/store.go:340-362 | Refused with the row unchanged unless both statements succeed and the stored status allows the move |
| Queue.JobQueue.Remove | cloud/internal/queue/inmemory.go:70-87 | Removes the first occurrence, keeps the order, and reports an absent id |
| Queue.WithoutTakesOne | cloud/internal/queue/inmemory.go:70-87 | Removal takes exactly one copy of the id, if there is one |
| JobApi.JobHandler.HandleCreateJob | cloud/internal/api/api.go:120-307 | A request is refused exactly for its first failing guard, spelled out, and without effect; otherwise the row stored under the new id has the request's fields in their own columns (see AsAsked), nothing else changes, and the id is enqueued once unless that fails |
| JobApi.DraftsAreStorable | cloud/internal/api/api.go:264-294 | A job built from an accepted request passes validation, and storing it changes nothing |
| JobApi.DraftsAreAsAsked | cloud/internal/api/api.go:236-262 | The job that is built has the request's buckets, key, command, headers, body and timeout, trimmed URL and method, trimmed upper-case type and mode with COMMAND by default, the requested attempt if positive, and is PENDING and unowned |
| Texts.TrimExact | cloud/internal/api/api.go:194-210 | The trimmed text is the one and only text that has no white space at its ends and differs from the original by white space at the ends |
| AgentClient.Client.ProcessJob | agent/internal/client/client.go:398-544 | For every outcome of every external step exactly two reports: RUNNING, then SUCCEEDED if and only if each step went well, step by step for commands and for forwarded requests, and FAILED with a message otherwise; streams, command line, key and upload spelled out; temporary files gone, slot freed, request loop told |
| AgentClient.Client.ProcessForwardJob | agent/internal/client/client.go:815-995 | One report, SUCCEEDED if and only if input, request, response and upload all went well, with the response uploaded at most once |
| AgentClient.Client.HandleJobAssigned | agent/internal/client/client.go:370-395 | A worker is started if and only if there is room; otherwise one FAILED report, none for a missing id |
| AgentClient.ConcludesAsPlanned | agent/internal/client/client.go:398-544 | What a worker reports last is a final report of the protocol model, with a key only after an upload |
| AgentClient.ShownFits | agent/internal/client/client.go:1074-1089 | Reported output is well-formed UTF-8 of at most 10021 bytes, and sanitising it once more changes nothing |
| AgentClient.ShownExact | agent/internal/client/client.go:773-795 | Well-formed output of at most 10000 bytes is reported as it is |
| AgentThreads.CapacityUnderInterleaving | agent/internal/client/client.go:245-272 | In every interleaving the counter is the number of running jobs and the one about to start, within the limit; an admitted job still finds room when counted; no decrement is suppressed |
| AgentThreads.NoLostWakeup | agent/internal/client/client.go:298-347 | From a worker's signal until the next check the signal waits or was taken, and the woken loop asks if and only if the jobs still running leave room |
| AgentThreads.ChecksAsk | agent/internal/client/client.go:298-338 | Every check of the loop, woken or polling, goes on to ask if and only if the agent is unpaused and the jobs at hand leave room |
| AgentThreads.BackoffExact | agent/internal/client/client.go:298-339 | In every state the wait is 500 ms doubled per refused poll since the last reset, up to 30 s |
| AgentThreads.BackoffRange | agent/internal/client/client.go:298-339 | The wait stays between 500 ms and 30 s and reaches 30 s after exactly six refusals |
| AgentThreads.RefusedSince | agent/internal/client/client.go:298-338 | The wait depends on the time-outs without room since the last wake that found room, and on whether that wake's periodic send failed, and on nothing else |
| AgentThreads.SchedulesLoop | agent/internal/client/client.go:298-338 | In every interleaving the loop's wait is that of the wakes it has dealt with |
| AgentThreads.JobRequestLoop | agent/internal/client/client.go:298-339 | Over any list of wakes the loop arms those waits and asks at exactly the wakes that find room |
| Utf8.SanitizeUTF8 | agent/internal/client/client.go:1009-1029 | The loop yields well-formed UTF-8 and returns its input if and only if that was well-formed |
| Utf8.SanitizeMeetsRfc3629 | agent/internal/client/client.go:1009-1029 | Well-formed result, identity exactly on well-formed text, idempotent, length at most tripled |
| Utf8.ValidIsWellFormed | agent/internal/client/client.go:1010-1012 | The validity check accepts exactly the encodings of sequences of Unicode scalar values (section 3 of RFC 3629) |
| Utf8.ValidIsGrammar | agent/internal/client/client.go:1010-1012 | It accepts exactly what the grammar of section 4 of RFC 3629 derives |
| Utf8.SanitizePrefix | agent/internal/client/client.go:1018-1027 | Valid text passes unchanged whatever follows it |
| Utf8.SanitizeReplaces | agent/internal/client/client.go:1018-1027 | A byte at which no character can be decoded becomes U+FFFD on its own |
| Utf8.CutSanitized | agent/internal/client/client.go:998-1003 | Text cut at n and sanitised again is intact up to the last character boundary, then one U+FFFD per dangling byte, then the marker |
| Utf8.ReportedOutput | agent/internal/client/client.go:773-795 | Sanitise, cut at n, sanitise: well-formed, at most n + 21 bytes, with the exact text and length |
| Utf8.ReportedStreams | agent/internal/client/client.go:1076-1078 | With the limit 10000: at most 10021 bytes, the first 9997 kept, the marker intact |
| Utf8.BoundIsTight | agent/internal/client/client.go:998-1003 | The bound n + 21 is reached |
| Placeholders.SubstitutionExact | agent/internal/client/client.go:740-742 | The two replacements in sequence equal one simultaneous substitution for every command if and only if the input path does not clash with `{output}` or the output path is `{output}` itself |
| Placeholders.OrdinaryPaths | agent/internal/client/client.go:740-742 | A path without braces and with a character outside "output" does not clash |
| Placeholders.EmptyPathClashes | agent/internal/client/client.go:466-470 | The empty path does: a concrete command on which the two differ |
| InputCache.CacheAgrees | agent/internal/client/client.go:644-685 | In every run a file handed out holds what its URL served in this call, or in an earlier one less than that call's TTL ago |
| InputCache.StableContentAgrees | agent/internal/client/client.go:644-685 | While a URL serves the same thing, the cache and a plain download agree, failures included |
| InputCache.HitsExactly | agent/internal/client/client.go:658-684 | With caching on, a call is answered from the cache, unchanged and whatever the web would say, if and only if an earlier download of the URL is still within its TTL with no later one since; otherwise it downloads and succeeds exactly if served |
| InputCache.DirectoryIsEntries | agent/internal/client/client.go:687-724 | In every state the cache directory is exactly the entries' files, one each, also after failed downloads |
| InputCache.UncachedLeavesNothing | agent/internal/client/client.go:649-656 | With caching off, a call and its cleanup leave no trace |
| InputCache.FileCache.GetCachedInputFile | agent/internal/client/client.go:644-685 | Cache, files and result end as the specification's step says |

## Left out

- WebSocket, HTTP and process plumbing, marshalling, presigning, UUIDs, SHA-256 and clocks: outcomes and values that come from outside; a presigned URL is determined by its operation and key, the hash has no collisions.
- Failing sends: a message that `handleRequestJob` or the agent writes reaches its channel; the channels are reliable and FIFO.
- SQL, timestamps, lease deadlines, `List` and the MySQL store: a map from id to row; rows never hold a status outside the table.
- The Redis queue and a nil queue: the in-memory FIFO stands for the queue.
- Token validation, origin checks, content types, body sizes and configuration.
- Two connections at a time for one agent id, and the removal of an agent when its connection ends.
- Requests under another agent's id: the step machine takes them, but beyond the results on tokens nothing is proved of runs with them.
- Interleaved runs in which an agent reports a job that was never sent to it while a failed clear left its name in the row; `Handlers.AnyMessageFreezes` covers such reports for uninterrupted handlers.
- Use of the input cache by several workers at once, and the agent's `SetRunningJobs`.
- The headers and the body of a forwarded request; forward headers are a text.
- Trimming and upper-casing of characters outside ASCII.
- RCount and SCount of the step machine: reading and writing the counter is one step, because only the handler of the agent's own connection does it.
- ProtocolRoom.JobsFindRoom: agents with one slot only; late requests before the decrement and heartbeats that take the count back are excluded because with either it is false (`ProtocolRaces.LateRequestsFindNoRoom`, `ProtocolRaces.HeartbeatsFindNoRoom`), and pausing because a job may be on its way.

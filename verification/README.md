# Verified model of the macro-research agent runtime

This project models, in Dafny, the parts of the runtime that carry its hardest promises, and proves them
for every input, every run and every interleaving:

- **Durable orchestration.** The checkpointed graph (parse, assemble, approve, submit, poll, finalize), the
  shared job store and the asynchronous worker form one transition system over any number of threads and
  jobs (`Reducers`, `Graph`, `Jobs`, `JobRuns`, `JobStore`, `Orchestration`, `Projection`, `Durability`,
  `Requests`, `Approvals`, `Witnesses`, `GraphService`).
  One step is a graph node with its checkpoint, a crash of a submit node between its store write and its
  checkpoint, a new run, a review, a client's submission or cancellation request, one turn of the worker's
  polling loop, or the wake-up of one sleeping execution. The classes `JobStore.JobStore`,
  `JobStore.Worker` and `GraphService.Service` update their fields in place and are proved against that
  transition system.
- **The structured ReAct loop.** The main loop, the tool calls and the retries, with an arbitrary provider
  and arbitrary tools, leave three records (messages, steps, trace) which are proved to agree
  (`Trace`, `AgentLoop`, `Prompts`).
- **Context assembly.** Deduplication, pruning, stable sorting, the greedy token budget, the positional
  reordering and the report, and which items the provider is shown (`Sequences`, `Sorting`, `Tallies`,
  `Context`, `Assembler`, `Selection`).
- **Retrieval and small protocols.** The BM25 index against brute-force scoring and what makes a chunk score
  more, reciprocal-rank fusion and the domain boost, the overlapping chunker, JSON-RPC request/response
  correlation, and the episode encoding (`Ranking`, `Bm25`, `Relevance`, `Fusion`, `Chunker`, `Mcp`, `Episode`).

`Wrappers`, `Text`, `Decimal` and `Arithmetic` hold the option type, substring search, decimal printing and
the comparison of fractions that the others share. `dafny verify dfyconfig.toml` checks everything.

## Environment

These are hypotheses of the transition systems, not facts about the code:

- A submission draws a clock id that is not in the store. `JobRuns.SubmissionKeepsStore` says exactly what
  happens otherwise, and `JobRuns.SameMillisecondLosesJob` gives the input.
- Review actions are `approved`, `rejected` or `edited`. A review may replace the plan with any of the three.
- Clients other than the graph submit under keys of their own and ask for the cancellation of queued or
  running jobs only. Every job grants at least one attempt.
- Everything between two awaits is one step (`src/agent_runtime/jobs/worker.py:44` and `:54` are the only
  awaits of the worker).
- The provider accepts every request that starts with the core instruction, holds one to twenty items and
  carries a history that starts with the user's message; that each request is such a one is proved at
  each call.

A crashed submit may be replayed from its checkpoint, or a new run may be entered over it: both are steps of
the system. Exactly-once holds on the replay path; `Durability.OwnedExactly` and
`Durability.EnterKeepsLedgerExactly` say exactly which stored job a new run leaves without an owner.

## Where the code says something else than its documentation

The model follows the code.

- `decide_after_job_activity` is documented to leave pending jobs checkpointed
  (`src/agent_runtime/graph/edges.py:44`). Only the run that submits the job pauses: a later run sets the
  status to "running" (`src/agent_runtime/graph/service.py:24`) and polls until the job is done or the guard
  ends the run. `Durability.PausesOnlyAfterSubmit`, `Durability.ReentryPollsToTheGuard`; reached by the run of
  `Witnesses.PollingIsReached`.
- A failed job does not leave the run failed: finalize overwrites the status
  (`src/agent_runtime/graph/nodes.py:165-175`). `Durability.FailedJobReportsCompleted`; reached by
  the run of `Witnesses.FailedPollIsReached`.
- Approving the drafted plan unedited should lead to evidence (`tests/test_graph_approval.py:17-23`). The
  draft names a task that is not a registered capability, so the gate denies it and nothing is submitted.
  `Durability.UneditedApprovalSubmitsNothing`, reached by the run of `Witnesses.ReviewIsReached`;
  `Approvals.ApprovalStoresExactly` says which approvals do store a job.
- The policy gate sends every call of a high-risk tool to a human
  (`src/agent_runtime/mcp_clients/policy.py:35-38`), but the submit node acts on its denials only
  (`src/agent_runtime/graph/nodes.py:112-113`). By `Requests.GateAsksForReview` every plan that is not denied is
  sent to a human; by `Requests.ReviewedExactly` a submitted job was approved if and only if its request held one
  of five words, and otherwise nobody reviewed it.
- A final answer shows the thread's one job as its evidence, whichever request asked for it
  (`src/agent_runtime/graph/nodes.py:170-174`). By `Approvals.EvidenceIsCurrentExactly` the evidence is the
  answered request's own if and only if the thread had no job when the run was entered; the run of
  `Witnesses.EarlierEvidenceIsShown` shows an earlier request's job for a query that asked for none.
- The guard ends a run at 25 events; `tests/test_graph_routing.py:44-59` expects it at ten.
- The cap of twenty items is not enforced when twenty or more items must be kept: then the other items are
  not cut at all (`src/agent_runtime/context/pruner.py:49-51`). `Context.PruneCap` gives the condition,
  `Context.PruneCapCanFail` the input.
- Reordering repeats an item that is both a system item and a user message
  (`src/agent_runtime/context/assembler.py:117-121`). `Assembler.Conservation` gives the
  condition, `Assembler.ConservationCanFail` the input.
- The positional reordering is meant to put the important items at both ends
  (`src/agent_runtime/context/assembler.py:62-64`, `:107-113`). Apart from system items and user messages, the
  second most important item comes last if and only if there are two or three of them; of more, one of the two
  least important does (`Selection.SecondComesLastExactly`).
- A stream that ends cleanly leaves unanswered futures waiting (`src/agent_runtime/mcp/client.py:35-36`),
  though the reader is meant not to deadlock its callers. `Mcp.EndOfStreamStrands`.
- A response whose id is `1.0`, or for the first request `true`, answers the request of that number
  (`src/agent_runtime/mcp/client.py:40-44`), though JSON-RPC asks for the same id. `Mcp.AnsweringIdsExactly`.
- The chunker does not end on a long document when the overlap is not smaller than a chunk, and loses text
  when it is negative (`src/agent_runtime/retrieval/chunker.py:22-39`). `Chunker.LoopEndsExactly`,
  `Chunker.TextIsLostExactly`.

## Model

| member | source | states |
|---|---|---|
| `Reducers.ReduceUniqueStrList` | src/agent_runtime/graph/reducers.py:12-25 | the loop with its `seen` set appends exactly the first occurrences that are new |
| `Reducers.UniqueLaws` | src/agent_runtime/graph/reducers.py:12-25 | the left list stays in front, everything from both lists is present and nothing else, and no duplicate is added |
| `Reducers.UniqueReplay` | src/agent_runtime/graph/reducers.py:12-25 | merging the same update twice is merging it once |
| `Reducers.ReduceArtifactRefs` | src/agent_runtime/graph/reducers.py:27-42 | the dictionary loop computes the keyed upsert, insertion order included |
| `Reducers.UpsertAllLaws` | src/agent_runtime/graph/reducers.py:36-40 | keys stay unique and in place, and each place ends with the latest value given for its key |
| `Reducers.KeyedReplay` | src/agent_runtime/graph/reducers.py:27-42 | replaying an update of references that carry a business key changes nothing, whatever the list already holds |
| `Reducers.ReplayIsAbsorbedExactly` | src/agent_runtime/graph/reducers.py:36-42 | for every list, the replay of one reference is absorbed if and only if it carries a business key, generated keys that collide included |
| `Reducers.LaterReplaces` | src/agent_runtime/graph/reducers.py:29-42 | of two references the second replaces the first if and only if both go by one name, the artifact's before the job's |
| `Reducers.UnnamedAreKept` | src/agent_runtime/graph/reducers.py:36-42 | references without a name are all kept, in order, as long as no name in use looks like a generated one |
| `JobStore.JobStore.SubmitJob` | src/agent_runtime/jobs/store.py:12-26 | the stored job with that key, or a new queued one under the clock id; the whole new store, overwriting included |
| `JobStore.JobStore.GetJob` | src/agent_runtime/jobs/store.py:28-30 | the record under that id, or nothing when there is none |
| `JobStore.JobStore.UpdateJobStatus` | src/agent_runtime/jobs/store.py:32-43 | the status is set, result and error only when given, all other jobs untouched; found exactly when stored |
| `JobStore.JobStore.FetchNext` | src/agent_runtime/jobs/store.py:45-57 | the first job in insertion order with the status asked for, or nothing |
| `JobStore.Worker.AcknowledgeCancellation` | src/agent_runtime/jobs/worker.py:28-34 | the first cancellation request becomes cancelled, nothing else changes |
| `JobStore.Worker.ClaimNext` | src/agent_runtime/jobs/worker.py:36-43 | the first queued job is running with one more attempt and one more execution in flight |
| `JobStore.Worker.Turn` | src/agent_runtime/jobs/worker.py:25-44 | one iteration of the polling loop is the loop step of the transition system |
| `JobStore.Worker.Wake` | src/agent_runtime/jobs/worker.py:46-78 | the rest of an execution after its sleep is the wake-up step of the transition system |
| `JobStore.ClockIdIs` | src/agent_runtime/jobs/store.py:20 | a clock id spells its millisecond, so two are equal if and only if their milliseconds are |
| `JobRuns.WakeWrites` | src/agent_runtime/jobs/worker.py:54-78 | what a wake-up writes, message and artifact address spelled out: cancelled if that was asked for, else succeeded, queued again while an attempt is left, or failed; no other job is touched |
| `Jobs.StepKeepsInv` | src/agent_runtime/jobs/worker.py:25-78 | every step keeps the invariant (one live execution at most, queued jobs none and an attempt left, verdicts backed by attempts) and moves each job along one edge of the lifecycle diagram |
| `Jobs.StepKeepsJobs` | src/agent_runtime/jobs/store.py:32-43 | id, type, key, payload and granted attempts never change; succeeded never changes at all |
| `Jobs.StepPointwise` | src/agent_runtime/jobs/worker.py:27-78 | what each step does to each stored job, job by job |
| `JobRuns.RunKeepsInv` | src/agent_runtime/jobs/worker.py:25-78 | the invariant holds after any run, and every job keeps its place and identity |
| `JobRuns.Verdicts` | src/agent_runtime/jobs/worker.py:63-78 | in every reachable state succeeded means one attempt and the stored artifact, failed means all attempts used and the error set, queued means an attempt left and nothing in flight |
| `JobRuns.ArtifactsDiffer` | src/agent_runtime/jobs/worker.py:68 | two jobs have one artifact id, and one storage address, if and only if they are one job |
| `JobRuns.UncancelledRuns` | src/agent_runtime/jobs/worker.py:28-34 | without cancellation requests no job is ever cancelled |
| `JobRuns.SettledForever` | src/agent_runtime/jobs/worker.py:25-78 | a succeeded, failed or cancelled job with nothing in flight is never changed again |
| `JobRuns.WithdrawnForever` | src/agent_runtime/jobs/worker.py:28-40 | a job cancelled while nothing runs it is never run again: its attempts stay as they are |
| `JobRuns.CancelledExit` | src/agent_runtime/jobs/worker.py:56-78 | cancelled is left exactly by the wake-up of an execution already in flight, with that execution's outcome |
| `JobRuns.QuiescentIsSettled` | src/agent_runtime/jobs/worker.py:25-78 | with nothing queued, in flight or to acknowledge, every job has its verdict |
| `JobRuns.StepConserves` | src/agent_runtime/jobs/worker.py:25-78 | claims, wake-ups and acknowledgements of a step are exactly what the potential loses, plus what the step grants |
| `JobRuns.WorkConserved` | src/agent_runtime/jobs/worker.py:25-78 | the same equation over whole runs |
| `JobRuns.WorkBound` | src/agent_runtime/jobs/worker.py:36-43 | from the empty store, all work is at most two per granted attempt plus one per cancellation request |
| `JobRuns.QueuedStep` | src/agent_runtime/jobs/store.py:45-50 | while a job stays queued, each loop turn takes one attempt off the backlog before it and nothing adds to it |
| `JobRuns.BoundedWaiting` | src/agent_runtime/jobs/store.py:45-50 | a queued job leaves the queue within one more loop turn than the attempts left before it, by being claimed unless its own cancellation is asked for |
| `JobRuns.ResubmissionIsIdempotent` | src/agent_runtime/jobs/store.py:12-17 | submitting under a key again, at any later time, returns the first id and writes nothing |
| `JobRuns.FailingJobFails` | src/agent_runtime/jobs/worker.py:63-78 | a job that always fails, alone in the store, is claimed and retried until it has failed |
| `JobRuns.SubmissionKeepsStore` | src/agent_runtime/jobs/store.py:15-26 | a submission keeps every stored job if and only if its key is stored or its id is not |
| `JobRuns.SameMillisecondLosesJob` | src/agent_runtime/jobs/store.py:20-25 | two submissions in the same millisecond leave one job |
| `Graph.SubmitKeyInjective` | src/agent_runtime/graph/nodes.py:121 | a submission key names one thread and one step |
| `Graph.DeniedUnlessForecast` | src/agent_runtime/mcp_clients/policy.py:19-41 | with the registry of the graph, the gate denies exactly the plans that name another task than the registered one |
| `Graph.GateDecides` | src/agent_runtime/mcp_clients/policy.py:19-41 | for any registry, role and arguments: denied if and only if the tool is unknown, the role is not allowed or an argument is not in the schema; never allowed when high-risk or needing approval, and sent to a human only then |
| `Graph.RoutesSafely` | src/agent_runtime/graph/edges.py:5-40 | whatever the state holds, only a live request that is not direct, before the guard, is reviewed, queued or polled, and none is queued or polled while a review is open, refused or edited |
| `GraphService.SubmitMcpJobNode` | src/agent_runtime/graph/nodes.py:105-129 | the node's update and the whole new store, for a denied and for an admitted plan |
| `GraphService.PollJobStatusNode` | src/agent_runtime/graph/nodes.py:131-157 | the node's update in each branch, and the exception when a succeeded job has no result |
| `GraphService.Service.Step` | src/agent_runtime/graph/builder.py:21-46 | running the pending node, merging and following the edge is one step of the world |
| `GraphService.Service.Invoke` | src/agent_runtime/graph/service.py:28 | an invocation ends, at the end of the graph or at a review, having run only nodes of this thread, each with its own reading of the clock |
| `GraphService.Service.RunWorkflow` | src/agent_runtime/graph/service.py:22-28 | from every state of the invariant a run ends, keeps the invariant, and adds between 2 and max(2, 26 - n - n % 2) events to the n it found; and it leaves thread and store as `Requests.InvocationLeadsTo` says |
| `GraphService.Service.ResumeWorkflow` | src/agent_runtime/graph/service.py:30-38 | a resume hands the review to the waiting node and runs on to the next review or the end, leaving thread and store as `Requests.ReviewInvocation` says |
| `Requests.InvocationLeadsTo` | src/agent_runtime/graph/nodes.py:23-35 | below 23 events, a direct request is answered and stores nothing; a risky one waits for a review of the drafted plan and stores nothing; any other, on a thread without a job, stores exactly one queued job under the step reached and pauses, or none if the gate refuses the plan; on a thread with a completed job it is answered with that job's artifact |
| `Requests.AnswerInvocation` | src/agent_runtime/graph/edges.py:13-15 | an invocation whose first stop is the answer leaves every stored job as it was and answers the query itself, with the artifact of the completed job if there is one |
| `Requests.RiskyInvocation` | src/agent_runtime/graph/edges.py:17-20 | an invocation with a risky request ends at the review of exactly the drafted plan, two events later, the store untouched |
| `Requests.PlainInvocation` | src/agent_runtime/graph/edges.py:31-33 | an invocation with a plain request on a thread without a job appends one queued job, its key, plan, type and attempts spelled out, or is blocked by the gate |
| `Requests.ReviewInvocation` | src/agent_runtime/graph/nodes.py:45-64 | below 23 events, a rejection aborts and fails the run, an edit asks for another review of the edited plan, an approval stores one job with the plan the review leaves, or none if the gate refuses it |
| `Requests.DirectOnlyAnswers` | src/agent_runtime/graph/edges.py:13-15 | in every reachable state the events of a direct request are its parse, assemblies and answer: no review, no submission, no poll |
| `Requests.ReviewedExactly` | src/agent_runtime/graph/nodes.py:26-34 | in every reachable state a submitted job was approved two events before if and only if its request held one of the five risky words; otherwise it followed from the request alone |
| `Requests.GateAsksForReview` | src/agent_runtime/graph/nodes.py:112-118 | the graph's gate refuses a plan or sends it to a human; it allows none |
| `Orchestration.StepKeepsInv` | src/agent_runtime/graph/builder.py:11-48 | every step of any party keeps the invariant of the world: trail grammar, position, jobs, links to the store, ledger |
| `Orchestration.RunKeepsInv` | src/agent_runtime/graph/builder.py:11-48 | so does every run, over any number of threads |
| `Orchestration.PollNeverRaises` | src/agent_runtime/graph/nodes.py:143-148 | poll never reads a result that is not there |
| `Orchestration.ActiveIsStored` | src/agent_runtime/graph/nodes.py:134-140 | a thread's active job is in the store |
| `Orchestration.SubmitRecords` | src/agent_runtime/graph/nodes.py:120-129 | a submission is recorded by the event at its own index, under the stored id, and every stored job stays accounted for |
| `Orchestration.CrashKeepsInv` | src/agent_runtime/graph/nodes.py:121-122 | a crash after the store write leaves every stored job recorded or pending |
| `Orchestration.EnterKeepsInv` | src/agent_runtime/graph/service.py:22-28 | a new run, even over a written and uncheckpointed submit, keeps every stored job accounted for: recorded, pending or orphaned by a request at its step |
| `Durability.OwnedExactly` | src/agent_runtime/graph/nodes.py:120-128 | in every reachable state a stored job of a thread is recorded or pending if and only if no new run was entered at its step |
| `Durability.OneJobPerThread` | src/agent_runtime/graph/edges.py:26-33 | in every reachable state a thread owns at most one such job, whatever crashes and replays |
| `Durability.PendingSubmitStands` | src/agent_runtime/graph/nodes.py:105-129 | while its own node is not completed, nothing anybody does changes a pending submit or renames a stored job |
| `Durability.CrashedWriteIsFound` | src/agent_runtime/jobs/store.py:14-17 | the write of a crashed submit is found in any later store, under the id it was given |
| `Durability.ReplayedSubmitIsExactlyOnce` | src/agent_runtime/graph/nodes.py:105-129 | after a crash, any steps of anybody and any number of crashed replays, the completing replay leaves the thread as the crash-free node would have and adds nothing to the store |
| `Durability.EnterKeepsLedgerExactly` | src/agent_runtime/graph/service.py:22-28 | a new run leaves a thread every job it owned if and only if no submit of that thread is written and not checkpointed |
| `Durability.ThreadsOwnTheirJobs` | src/agent_runtime/graph/nodes.py:120-125 | no two threads wait for the same job |
| `Durability.GraphAgreesWithStore` | src/agent_runtime/graph/edges.py:26-40 | the last active job is the only one, is stored under this thread's key, is the router's pending job exactly when not completed, and what is completed succeeded with the recorded artifact |
| `Projection.StepProjects` | src/agent_runtime/graph/nodes.py:122 | a step of the world is at most one step of the job system, or leaves it alone |
| `Projection.RunProjects` | src/agent_runtime/jobs/worker.py:25-78 | so every run of the world is, for the store, a run of the job system with the same number of loop turns, whose steps other than submissions are the world's own |
| `Projection.WorldWorkBound` | src/agent_runtime/jobs/worker.py:36-43 | in every run of the world, all the work of the worker is paid for by the attempts and cancellation requests that its job system was given |
| `Projection.WorldBoundedWaiting` | src/agent_runtime/jobs/store.py:45-50 | whatever graph, clients and worker do, a queued job leaves the queue within one more loop turn than the attempts left before it, by being claimed unless its own cancellation is asked for |
| `Durability.ApprovalSafety` | src/agent_runtime/graph/edges.py:17-33 | every job a thread ever stored passed the gate and was cleared two events before: by an approval that left exactly the submitted plan, or by a request needing none |
| `Durability.AuditTrailInOrder` | src/agent_runtime/graph/nodes.py:105-181 | in every reachable state event i carries step i, and each event follows what may precede it |
| `Durability.EpochDecisions` | src/agent_runtime/graph/edges.py:17-24 | between a request and its submission there are only assemblies and edits, then one approval: a rejection excludes submission, an edit forces another decision |
| `Durability.NoSubmitWithoutApproval` | src/agent_runtime/graph/nodes.py:27-34 | a request that needed approval is submitted only after its approval |
| `Durability.FuelStep` | src/agent_runtime/graph/edges.py:6-8 | each node run or resume burns fuel and writes one event; no other step touches the thread |
| `Durability.NodesRunBound` | src/agent_runtime/graph/edges.py:5-8 | until its next entry a thread runs at most as many nodes as its fuel |
| `Durability.RunTerminates` | src/agent_runtime/graph/edges.py:5-8 | a run entered at n events executes at most max(2, 26 - n - n % 2) nodes, resumes included, whatever the store does |
| `Durability.BoundIsReached` | src/agent_runtime/graph/edges.py:23-24 | the bound is exact: from every state and every n, a request that needs approval, edited at each review, executes that many nodes |
| `Durability.PollRound` | src/agent_runtime/graph/service.py:24 | two nodes of a thread polling an unfinished job bring it back to where it was, two events later, having changed nothing else |
| `Durability.FuelIsUsedUp` | src/agent_runtime/graph/edges.py:43-49 | such a thread runs every node its fuel allows, whatever the parity of its trail |
| `Durability.ReentryPollsToTheGuard` | src/agent_runtime/graph/service.py:22-28 | a second run on a thread with an unfinished job, for a request needing no approval, executes exactly its bound: it polls to the guard and never pauses |
| `Durability.LateRunsOnlyPrepare` | src/agent_runtime/graph/edges.py:6-8 | a run entered at 23 events or more only parses and assembles |
| `Durability.NothingIsTakenBack` | src/agent_runtime/graph/reducers.py:4-25 | over every run of the world a thread's events, errors and jobs are only added to at the end, and a prepared context and a started execution stay so |
| `Durability.PausesOnlyAfterSubmit` | src/agent_runtime/graph/edges.py:43-49 | the waiting status is left exactly by an admitted submission, and a poll never ends the run |
| `Durability.FailedJobReportsCompleted` | src/agent_runtime/graph/nodes.py:149-180 | polling a failed job fails the run and records its error, and finalize then reports the run completed |
| `Durability.FinalAnswerIsBacked` | src/agent_runtime/graph/nodes.py:159-181 | in every reachable state finalize aborts after a rejection, and otherwise answers the run's own query with exactly the artifact of the thread's completed job |
| `Durability.UneditedApprovalSubmitsNothing` | src/agent_runtime/graph/nodes.py:108-118 | approving the draft as it stands ends in a policy violation, an unchanged store and status completed |
| `Approvals.ApprovalStoresExactly` | src/agent_runtime/graph/edges.py:17-33 | after an approval and the assembly the thread is at an admitted submission if and only if it has no job, fewer than 23 events and a plan that passes the gate; then one job with that plan is stored, otherwise none |
| `Approvals.JobIsOwnExactly` | src/agent_runtime/graph/edges.py:27-33 | after a run was entered and until the next entry, the thread's job was submitted in this run, for its request, if and only if the thread had no job when the run was entered; otherwise it still is the job it had |
| `Approvals.EvidenceIsCurrentExactly` | src/agent_runtime/graph/nodes.py:159-181 | the answer names the request its run was entered with unless it was rejected, and the evidence it shows is of a job submitted in this run if and only if the thread had no job when the run was entered |
| `Approvals.FinishedJobIsReported` | src/agent_runtime/graph/nodes.py:131-181 | a thread polling a job that has succeeded ends three nodes later, its answer showing that job's artifact |
| `Witnesses.ReviewIsReached` | src/agent_runtime/graph/edges.py:19-20 | a legal run to a first review with the draft untouched |
| `Witnesses.WrittenSubmitIsReached` | src/agent_runtime/graph/nodes.py:121-122 | a legal run to a submit that is written and not checkpointed |
| `Witnesses.PollingIsReached` | src/agent_runtime/graph/service.py:22-28 | a legal run to a second run about to poll the unfinished job of the first, at an even number of events |
| `Witnesses.FailedPollIsReached` | src/agent_runtime/graph/nodes.py:149-152 | a legal run to a thread about to poll a job that has failed |
| `Witnesses.SucceededPollIsReached` | src/agent_runtime/graph/nodes.py:142-148 | a legal run to a second run about to poll the job of the first, which has succeeded meanwhile |
| `Witnesses.EarlierEvidenceIsShown` | src/agent_runtime/graph/nodes.py:170-174 | a legal run to an answer that shows, for a query parsed at event 5 that asked for no job, the artifact of the job submitted at event 4 for another query |
| `Trace.OneStopReason` | src/agent_runtime/runtime/loop.py:235-441 | a finished trace records exactly one stop reason, the one it finished with |
| `Trace.StepsNeverDecrease` | src/agent_runtime/runtime/loop.py:315-319 | step numbers never decrease along the trace |
| `Trace.EveryReceivedCallCompletes` | src/agent_runtime/runtime/loop.py:330-414 | in a finished trace every call received was completed, in order |
| `AgentLoop.MessageCount` | src/agent_runtime/runtime/loop.py:315-400 | a well-formed conversation is one user message, the replies and the tool results, and no more |
| `AgentLoop.CoreLeadsEveryBundle` | src/agent_runtime/runtime/loop.py:252-282 | whatever the history, every bundle starts with the core instruction and holds at most twenty items |
| `AgentLoop.AgentRuntime.TriesSettle` | src/agent_runtime/runtime/loop.py:114-130 | more retries do not change what a tool did once an attempt was not transient |
| `AgentLoop.AgentRuntime.FirstSettledDecides` | src/agent_runtime/runtime/loop.py:110-130 | a call is decided by its first attempt that meets no transient error, or by its last attempt if all do |
| `AgentLoop.AgentRuntime.ResultSays` | src/agent_runtime/runtime/loop.py:120-169 | the result carries the call's id and name; it is ok exactly when a registered tool gave an output; and each way to fail has its own error type, of which only invalid arguments may be retried |
| `AgentLoop.AgentRuntime.TryTool` | src/agent_runtime/runtime/loop.py:110-130 | the retry loop ends with the first attempt that is not transient, having recorded exactly the transient errors before it, at most the retries allowed |
| `AgentLoop.AgentRuntime.ExecuteTool` | src/agent_runtime/runtime/loop.py:101-169 | a tool call ends in an observation or one of three exceptions, with the result the tool's behaviour prescribes, the trace in the matching phase and the run failed exactly when retries ran out |
| `AgentLoop.AgentRuntime.Rescue` | src/agent_runtime/runtime/loop.py:350-398 | each exception becomes its failed result; only invalid arguments leave the run going |
| `AgentLoop.AgentRuntime.HandleCall` | src/agent_runtime/runtime/loop.py:330-420 | exactly one message and one step are added, holding the result the tool's behaviour prescribes, and the run fails exactly on a non-retryable error |
| `AgentLoop.AgentRuntime.HandleCalls` | src/agent_runtime/runtime/loop.py:329-422 | the calls are answered in order up to the first fatal one, all of them if none is |
| `AgentLoop.AgentRuntime.Turn` | src/agent_runtime/runtime/loop.py:235-438 | one iteration ends the run in a correct final state or leaves the records in step with one more step counted |
| `AgentLoop.AgentRuntime.Run` | src/agent_runtime/runtime/loop.py:173-441 | every run ends; its trace starts with the events of the preparation and is a word of the trace language ending with the state's stop reason; messages, steps and trace agree, with a stop step last exactly when the stop was not a non-retryable error, holding the rationale of the answer; and each message is the provider's reply to the assembled bundle followed by the whole conversation before it, or the tools' result for it |
| `AgentLoop.AgentRuntime.ReplyIsScripted` | src/agent_runtime/runtime/loop.py:295-315 | appending the provider's reply to the assembled request continues the prescribed conversation |
| `AgentLoop.AgentRuntime.ResultIsScripted` | src/agent_runtime/runtime/loop.py:341-400 | so does appending the prescribed result of the next owed call |
| `AgentLoop.AgentRuntime.AskProvider` | src/agent_runtime/runtime/loop.py:252-297 | the provider is asked with exactly the conversation so far as history and the bundle assembled from the preparation, the core instruction and all of it, and the reply is its reply to that; the warning is recorded exactly when the budget report gives it |
| `AgentLoop.AgentRuntime.ScriptedAt` | src/agent_runtime/runtime/loop.py:294-400 | message by message: a message where no call is owed is the provider's reply to the request made of everything before it, and any other is the result of the first call owed |
| `AgentLoop.AgentRuntime.HistoryIsShown` | src/agent_runtime/runtime/loop.py:268-280 | message i of the conversation is submitted as its own item after the core instruction, a user's at priority 95 and supplied by the user, any other at 40 |
| `AgentLoop.AgentRuntime.QuestionReachesProvider` | src/agent_runtime/runtime/loop.py:268-297 | whatever the tools have answered since, the bundle shows the user's question, as long as its text is new and fits the budget beside the core instruction |
| `AgentLoop.AgentRuntime.EvidenceStaysUntrusted` | src/agent_runtime/runtime/loop.py:213-223 | in every bundle retrieved evidence is marked as untrusted |
| `Prompts.PreparedItems` | src/agent_runtime/runtime/loop.py:185-242 | an item is submitted before the core instruction if and only if it is the activated skill's, the retrieval's or, when there are any, the memories' |
| `Prompts.RuleNamesTheMark` | src/agent_runtime/runtime/loop.py:258-263 | the core safety rule names, in quotes, the words that wrap evidence |
| `Prompts.EvidenceBearsTheMark` | src/agent_runtime/runtime/loop.py:213-218 | whatever was retrieved, the evidence opens with those words |
| `Prompts.MemoryIsShown` | src/agent_runtime/runtime/loop.py:227-237 | the memory item holds the line of every memory |
| `Prompts.ItemIsWrittenOut` | src/agent_runtime/runtime/loop.py:85-97 | the system message made of a bundle holds every item, under its kind, its trust level and its id |
| `AgentLoop.AgentRuntime.Opening` | src/agent_runtime/runtime/loop.py:177-218 | exactly the events of the preparation are recorded before the loop |
| `AgentLoop.AgentRuntime.OpeningTells` | src/agent_runtime/runtime/loop.py:177-213 | the opening of a trace tells whether a skill was activated and whether retrieval found evidence |
| `Context.Deduplicate` | src/agent_runtime/context/dedup.py:8-17 | the loop with its set of seen contents keeps exactly the first occurrences |
| `Context.DedupLaws` | src/agent_runtime/context/dedup.py:8-17 | nothing is invented, no stripped content is kept twice, every content stays represented |
| `Context.FirstOccurrenceKept` | src/agent_runtime/context/dedup.py:12-16 | the first item with its content is kept |
| `Context.StripLaws` | src/agent_runtime/context/dedup.py:13 | stripping removes white space on both sides, all of it, and nothing else |
| `Context.SortLaws` | src/agent_runtime/context/assembler.py:39 | sorting is descending, a permutation, and stable |
| `Context.PruneItems` | src/agent_runtime/context/pruner.py:21-56 | the loop and the second rule compute the pruned list and count exactly the items lost |
| `Context.PruneCap` | src/agent_runtime/context/pruner.py:42-54 | the cap of twenty holds if and only if at most twenty items are not stale or fewer than twenty are system items; system items always stay |
| `Context.PruneCapCanFail` | src/agent_runtime/context/pruner.py:49-51 | of twenty system items and one other none is cut |
| `Selection.FreshExactly` | src/agent_runtime/context/pruner.py:34-40 | the first rule drops exactly the items older than ten steps with a priority below sixty |
| `Selection.PruneKeepsBest` | src/agent_runtime/context/pruner.py:46-54 | of the items of one priority the cut keeps the first ones; and if it cuts any of them, twenty items are left and every one of them has at least that priority |
| `Selection.WithoutSystemItems` | src/agent_runtime/context/pruner.py:46-51 | without system items the cut is the first twenty of the descending list |
| `Selection.HighEnoughIsKept` | src/agent_runtime/context/pruner.py:42-54 | if at most twenty items that are not stale reach a priority, the cut takes none of them |
| `Assembler.TruncateToBudget` | src/agent_runtime/context/assembler.py:41-60 | the loop keeps what fits and every system item, and drops the rest |
| `Assembler.FitLaws` | src/agent_runtime/context/assembler.py:46-58 | the total is exact, kept and dropped partition the input, and no dropped item fits beside what is kept |
| `Assembler.FitWithinBudget` | src/agent_runtime/context/assembler.py:49-58 | the total exceeds the budget only if the system items alone do, and then nothing else is kept |
| `Selection.FitSkipsOnlyLarger` | src/agent_runtime/context/assembler.py:46-58 | an item dropped although a later one was kept that is no system item is larger than that one |
| `Assembler.ReorderForPositionalBias` | src/agent_runtime/context/assembler.py:106-130 | inserting and appending in a loop gives system, user, even-placed rest, odd-placed rest |
| `Assembler.ReorderedLaws` | src/agent_runtime/context/assembler.py:117-130 | reordering is a permutation plus one more copy of each item that is both system and user |
| `Selection.ReorderedPlaces` | src/agent_runtime/context/assembler.py:122-130 | the k-th of the other items stands k / 2 places into the first or the second half of them |
| `Selection.SecondComesLastExactly` | src/agent_runtime/context/assembler.py:122-130 | the second most important of the other items comes last if and only if there are two or three of them |
| `Assembler.Assemble` | src/agent_runtime/context/assembler.py:24-104 | the bundle of the five stages, and every figure of the report in terms of them; both distributions sum to the number of retained items |
| `Assembler.BudgetGuarantee` | src/agent_runtime/context/assembler.py:41-60 | the total is at most the larger of the budget and the first-seen system items' tokens; if those exceed the budget only they are kept; what was dropped would not have fitted; every first-seen system item is kept |
| `Assembler.FinalLaws` | src/agent_runtime/context/assembler.py:65-67 | the final ordering adds nothing exactly when it does not reorder or nothing is both system and user |
| `Assembler.Conservation` | src/agent_runtime/context/assembler.py:83-102 | after dedup = pruned + dropped + retained, in number and as multisets, if and only if nothing is reordered or no item that is first of its content is both system item and user message; and the reported total is the sum over the bundle if and only if the same holds |
| `Assembler.ConservationCanFail` | src/agent_runtime/context/assembler.py:117-121 | nine items of which one is both system item and user message come out as more, under any budget, and the total is not the bundle's |
| `Tallies.TallySums` | src/agent_runtime/context/assembler.py:70-74 | the entries of a distribution sum to the number of items counted |
| `Assembler.SoleSystemItemLeads` | src/agent_runtime/context/assembler.py:65-67 | with one kind of system item, first of its content and not a user message, every bundle starts with it and holds at most twenty items |
| `Selection.TopIsShown` | src/agent_runtime/context/assembler.py:24-67 | if the items that reach a priority number at most twenty and fit the budget together, each of them that is first of its content is in the bundle |
| `Selection.ShownIsSubmitted` | src/agent_runtime/context/assembler.py:24-67 | the bundle holds nothing that was not submitted |
| `Bm25.NoDivisionByZero` | src/agent_runtime/retrieval/bm25.py:62-65 | for a chunk that holds a query token both divisors are positive |
| `Bm25.IdfPositive` | src/agent_runtime/retrieval/bm25.py:42-44 | every weight is positive |
| `Bm25.ScorePositive` | src/agent_runtime/retrieval/bm25.py:53-65 | a chunk scores above zero exactly when it holds a query token |
| `Relevance.ArgumentIs` | src/agent_runtime/retrieval/bm25.py:42-44 | the smoothed ratio in closed form: (n + 1) / (holders + 0.5) |
| `Relevance.RarerWeighsMore` | src/agent_runtime/retrieval/bm25.py:42-44 | of two tokens one weighs more if and only if fewer chunks hold it |
| `Relevance.FirstOccurrenceIsWorthTheWeight` | src/agent_runtime/retrieval/bm25.py:62-65 | in a chunk of average length the first occurrence of a token is worth exactly its weight |
| `Relevance.AverageIs` | src/agent_runtime/retrieval/bm25.py:39-40 | the average is the total length over the number of chunks, and the total counts every chunk once |
| `Relevance.FrequentIsWorthMore` | src/agent_runtime/retrieval/bm25.py:62-65 | one more occurrence is worth more if and only if length counts for something, and never less |
| `Relevance.LongerIsWorthLess` | src/agent_runtime/retrieval/bm25.py:62-65 | the same frequency in a longer chunk is worth less if and only if k1 and b are positive, and never more |
| `Relevance.Saturates` | src/agent_runtime/retrieval/bm25.py:62-65 | however often a token occurs, it is worth at most k1 + 1 times its weight |
| `Relevance.BetterChunkScoresMore` | src/agent_runtime/retrieval/bm25.py:53-65 | a chunk no longer than another that holds each query token as often scores no less, and more if it holds one of them more often or is shorter |
| `Relevance.RarerTokenScoresMore` | src/agent_runtime/retrieval/bm25.py:42-65 | of two chunks of one length, each holding one of two tokens equally often, that with the rarer token scores more |
| `Bm25.BM25Retriever.Fit` | src/agent_runtime/retrieval/bm25.py:22-44 | whatever the object was fitted to before and whichever ids repeat: postings are the old ones and those of the corpus, frequencies and lengths those of the last chunk of each id, average and chunks those of the corpus, and each indexed token has its weight; with nothing held before and distinct ids, the index is that of the corpus |
| `Bm25.BM25Retriever.StalePostingsExactly` | src/agent_runtime/retrieval/bm25.py:35-44 | after a fit to chunks with distinct ids the index is that of the corpus if and only if every posting held before is one of the corpus |
| `Bm25.BM25Retriever.InvertedAgreesWithScan` | src/agent_runtime/retrieval/bm25.py:35-37 | a token is indexed exactly when some chunk holds it, and then with exactly those chunks |
| `Bm25.BM25Retriever.PricedAt` | src/agent_runtime/retrieval/bm25.py:59-65 | what the index computes for a chunk and a token is the gain of the definition |
| `Bm25.BM25Retriever.AddGains` | src/agent_runtime/retrieval/bm25.py:57-65 | the loop over the posting set, in whatever order, adds each gain once |
| `Bm25.BM25Retriever.AddToken` | src/agent_runtime/retrieval/bm25.py:53-65 | one query token adds its gain to exactly the chunks that hold it |
| `Bm25.TokenStep` | src/agent_runtime/retrieval/bm25.py:53-65 | the dictionary holds each matching chunk with its brute-force score, repeated tokens included |
| `Bm25.BM25Retriever.Search` | src/agent_runtime/retrieval/bm25.py:46-81 | over an index that is that of the corpus, the hits are its chunks with their brute-force scores, best first, ranked from one, and no chunk left out outscores any of them |
| `Relevance.HigherScoreComesFirst` | src/agent_runtime/retrieval/bm25.py:67-81 | in the result of a search a chunk that scores more comes before one that scores less |
| `Bm25.BestOfSorted` | src/agent_runtime/retrieval/bm25.py:67 | sorting and cutting leaves the best |
| `Ranking.SortLaws` | src/agent_runtime/retrieval/hybrid.py:26 | sorting by score is descending and a permutation |
| `Fusion.Fuse` | src/agent_runtime/retrieval/hybrid.py:9-26 | the fused list holds exactly the ids of both rankings, once each, with the sum of 1/(k + rank), best first, equals in the order first seen, keyword hits first |
| `Fusion.FusedIsDetermined` | src/agent_runtime/retrieval/hybrid.py:9-26 | that leaves exactly one list |
| `Fusion.WorthOfPlace` | src/agent_runtime/retrieval/hybrid.py:14-22 | in a ranking without repeats the id at place i is worth exactly 1/(k + i + 1), and an absent one nothing |
| `Fusion.PlacesCompare` | src/agent_runtime/retrieval/hybrid.py:14-22 | of two ids one is worth more in such a ranking if and only if it is placed before the other |
| `Fusion.BetterPlacedComesFirst` | src/agent_runtime/retrieval/hybrid.py:14-26 | an id placed no worse in either ranking and better in one comes first, with the higher score |
| `Fusion.OneRankingStays` | src/agent_runtime/retrieval/hybrid.py:14-26 | one ranking fused with nothing keeps its order, the scores strictly falling |
| `Fusion.FuseHits` | src/agent_runtime/retrieval/hybrid.py:9-35 | each fused hit carries what the first hit on its chunk carries, keyword hits first, and is numbered by its place |
| `Fusion.TwoLastBeatOneFirst` | src/agent_runtime/retrieval/hybrid.py:14-22 | two last places beat one first place if and only if the lists are no longer than k + 1 |
| `Fusion.BothOutranksOne` | src/agent_runtime/retrieval/hybrid.py:9-26 | with such lists and no repeats, a chunk in both outranks every chunk in one |
| `Fusion.Rerank` | src/agent_runtime/retrieval/reranker.py:5-13 | the loop boosts exactly the domain hits, leaves every other field and hit alone, and sorts again |
| `Fusion.BoostDominates` | src/agent_runtime/retrieval/reranker.py:11 | the boost exceeds any fused score if and only if k is at least 40 |
| `Fusion.DomainChunksFirst` | src/agent_runtime/retrieval/reranker.py:9-13 | after fusion and boost every domain chunk precedes every other chunk |
| `Fusion.DomainHitsFirst` | src/agent_runtime/retrieval/reranker.py:9-13 | the same of the reranked hits: those whose id contains "arima" or "backtest" precede all others |
| `Chunker.SimpleChunker.ChunkDocument` | src/agent_runtime/retrieval/chunker.py:12-41 | the loop ends with the overlapping slices of the content, numbered in order and with their origin, or the whole content as one chunk without it |
| `Chunker.ChunkIdsDiffer` | src/agent_runtime/retrieval/chunker.py:12-41 | a chunk's id names its document and its number, so no two chunks of any documents share one |
| `Chunker.ChunksRebuildDocument` | src/agent_runtime/retrieval/chunker.py:22-39 | the first chunk and the later ones without their overlap rebuild the document |
| `Chunker.ChunkCount` | src/agent_runtime/retrieval/chunker.py:22-39 | there are ceil((length - overlap) / (size - overlap)) chunks |
| `Chunker.WindowInSomeChunk` | src/agent_runtime/retrieval/chunker.py:22-39 | every window of at most overlap + 1 characters lies inside some chunk |
| `Chunker.LoopEndsExactly` | src/agent_runtime/retrieval/chunker.py:22-39 | on a long document the loop ends if and only if the overlap is smaller than a chunk |
| `Chunker.TextIsLostExactly` | src/agent_runtime/retrieval/chunker.py:37 | text is lost if and only if the overlap is negative |
| `Mcp.StepKeepsInv` | src/agent_runtime/mcp/client.py:30-80 | known ids were issued, unfinished futures are known, finished futures stay, and a future is answered only by a response whose id equals its own |
| `Mcp.ResolvedOnce` | src/agent_runtime/mcp/client.py:45-46 | over every interleaving a future is resolved at most once |
| `Mcp.AnsweredByOwnId` | src/agent_runtime/mcp/client.py:43-46 | an answered future was answered by a received response whose id equals its own, with its payload |
| `Mcp.StrayResponseIgnored` | src/agent_runtime/mcp/client.py:40-44 | a response changes nothing if and only if it has no id or an id equal to none that is waited for |
| `Mcp.AnsweringIdsExactly` | src/agent_runtime/mcp/client.py:40-46 | the ids that answer request n are exactly the integer n, the floating-point number n and, for the first request, true |
| `Mcp.RepeatedResponseIgnored` | src/agent_runtime/mcp/client.py:43-46 | the second response under an id changes nothing |
| `Mcp.BrokenLineStrandsNobody` | src/agent_runtime/mcp/client.py:49-53 | after a line the reader cannot process every unfinished future holds its error |
| `Mcp.NothingAnsweredAfterStop` | src/agent_runtime/mcp/client.py:33-53 | a stopped reader answers nobody any more |
| `Mcp.StoppedReaderStrands` | src/agent_runtime/mcp/client.py:79-80 | a future still waiting when the reader stops waits for ever unless its caller gives up |
| `Mcp.EndOfStreamStrands` | src/agent_runtime/mcp/client.py:35-36 | a clean end of stream finishes no future, so exactly the unanswered ones are stranded |
| `Mcp.ResponsesAct` | src/agent_runtime/mcp/client.py:38-46 | what a list of responses with distinct ids does to each future and each known id |
| `Mcp.OrderOfResponsesIrrelevant` | src/agent_runtime/mcp/client.py:38-46 | two orders of the same distinct-id responses end in the same state |
| `Mcp.AsyncMcpStdioClient.SendRequest` | src/agent_runtime/mcp/client.py:55-77 | a fresh future is registered under the next id: the send step |
| `Mcp.AsyncMcpStdioClient.ReadLine` | src/agent_runtime/mcp/client.py:33-53 | one turn of the read loop is the receive step, for a document and for a broken line |
| `Episode.PartsRoundTrip` | src/agent_runtime/memory/models.py:65-79 | a list survives joining and splitting if and only if it is not one empty string and no element contains the bar |
| `Episode.EpisodeRoundTrip` | src/agent_runtime/memory/models.py:51-82 | reading back a stored episode succeeds, and restores every field but the timestamp if and only if both lists survive |
| `Episode.ReadingFailsExactly` | src/agent_runtime/memory/models.py:71-82 | reading back fails exactly on a stored step count that is no number |
| `Episode.ImportanceFalls` | src/agent_runtime/memory/models.py:59 | each of the first four errors costs a fifth of the importance; from the fifth on a tenth is left |
| `Episode.FiledUnderItsRun` | src/agent_runtime/memory/models.py:53-60 | an episode is filed as episodic under its run, in the namespace asked for, and two episodes under one key if and only if they are of one run |
| `Episode.PlainRecordReadsBack` | src/agent_runtime/memory/models.py:71-82 | a record without metadata reads back as an episode of unknown outcome, without run, lists or steps |
| `Decimal.PrintParse` | src/agent_runtime/memory/models.py:64-80 | a printed step count is read back as itself |
| `Decimal.ParsesExactly` | src/agent_runtime/memory/models.py:80 | a step count is read exactly when its text is a row of digits, with or without a minus sign |

## Left out

- The durable checkpointer, its serialisation and the graph library's own recursion limit: a checkpoint is the
  merged state and the next node.
- `call_tool_node` and `observe_tool_result_node`: no edge leads to them.
- Timestamps (`created_at`, `updated_at` of jobs, trace times), run ids inside records, and the stop step's
  message text.
- The channels `messages` and `selected_skills`, which no wired node writes, and the fixed contents of the
  context bundle and of the parsed request other than its intent.
- The value of the plan's horizon: the gate looks only at argument names, and the registered capability has
  no schema.
- JobStore.Worker.Turn: the `_running` flag, `start` and `stop` are not modelled, so a run is any number of
  turns; the lookup at the start of an execution is part of the wake-up, since no job is ever removed.
- GraphService.Service.Invoke: `invoke` is a synchronous call, so nothing else runs during it on the event
  loop; worker steps between the nodes of one invocation are covered by the transition system, not by this
  method.
- Lower-casing of queries: a query carries its lower-cased form. `strip` is modelled exactly.
- AgentLoop.AgentRuntime.Run: skills, retrieval, memory, the provider and the tools are parameters; event
  payloads are kept only where a property needs them (ids, outcome, attempt, reason).
- AgentLoop.AgentRuntime.ExecuteTool: the text that `str` makes of a missing key, and of a message without
  content, are parameters.
- Bm25.BM25Retriever.Search: over an index that is that of the corpus; after a second fit that leaves stale
  postings (`Bm25.BM25Retriever.StalePostingsExactly`) a search may meet an id that is no longer stored.
- Scores over exact rationals, the logarithm as any function positive above one: floating point and the
  rounding of reported scores and of the utilization ratio are not modelled.
- Mcp.AsyncMcpStdioClient.SendRequest: the pipe, the process and its absence are not modelled; a line that is
  not an object, or whose id is a list or an object, is a broken line.
- Embeddings and the vector index, the tokenizer's expressions, the memory store, the skill loader, the
  HTTP service, the script runner and the asynchronous executor.
- Spellings of integers that the encoder never writes (spaces, plus signs, underscores) when a step count
  is read back.

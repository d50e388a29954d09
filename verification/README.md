# AutoWeave orchestration, modelled and verified

This project models the orchestration engine of AutoWeave in Dafny and proves what it keeps, over
every input, every run and every interleaving of the steps it models. It has six connected parts.

* **The workflow run.** `RunModel` gives every method of `WorkflowRunState` as a function on a
  value, raising paths included (`Outcome` is the state left behind together with the answer or the
  error). `WorkflowRun.WorkflowRunState` is the mutable object, proved method by method against those
  functions. `RunInvariant` states the whole-run invariant `Inv`; `RunHistory` proves that every call
  keeps it and draws the whole-run theorems: dependency safety, a schedule that cannot raise,
  attempt discipline, truthful run status, appends that happen once. `Effects` says of every call, in
  the source's own states and words and independently of how the call is computed, when it succeeds,
  what it leaves behind and what it leaves alone. `Scheduler` and `Orchestration` build on it.
* **The worker protocol.** `Stream` is the worker's event stream: what each event decides, where the
  loop stops, which streams make it raise. `Protocol` proves that calls about other tasks leave a task
  and its attempts alone, and that calls made in the runtime's order keep every attempt in flight
  under a task IN_PROGRESS. `Retry.TaskRunner` runs one task through its attempts with arbitrary such
  calls of other threads between any two steps, and is itself proved to make its calls in that order.
* **Compiling a definition.** `CycleSearch` is the depth-first cycle check, `Kahn` the queue
  algorithm both topological sorts share, `WorkflowSpec` the compiler's methods, and `Compile` the
  theorems about what compilation preserves. `Digraph` and `DependencyGraph` hold the graph theory
  and the runtime's own sort.
* **The runtime protocol.** `DurableStore` and `Tables` are the database as rows in insertion order;
  `CanonicalSync` proves that incremental saves refine full rewrites; `Reload` that a saved run
  comes back the same; `LocalRuntime.Runtime` is the object that syncs, loads and recovers stale
  attempts; `DispatchLoop` is the bounded parallel launch loop in an arbitrary world, with everything
  that happened, looks and skipped tasks included, in its log; `Rework`
  grows the graph after a review.
* **Stores.** `Repository` and `InMemoryRepository` are the in-memory repository with its many
  indexes and its two closures over hard edges (`Closures`); `ArtifactRegistry` versions artifacts.
* **Coordination.** `Coordination` holds leases and idempotency windows under a clock, `Resp` the
  Redis serialization protocol (sections "Arrays" and "Bulk strings" of its specification).

## How to read the model

Ids and keys share the type `Name`, because `task()` tries one string first as a key and then as an
id. Titles, JSON payloads and timestamps are folded into an uninterpreted `payload`; ids drawn with
uuid4 and clock readings are arguments. The iteration order of a Python dict or set is arbitrary
wherever the result does not depend on it: such loops pick any element. `StateTransition` stands for
`StateTransitionError`, `UnknownKey` for `KeyError`, `InvalidValue` for `ValueError` and for a
constraint violation in the database, `Protocol` for `RedisProtocolError`.

`RunHistory.Legal` says what callers owe and the code does not check: drawn ids are new, batches
handed to `add_dynamic_tasks` are clean (`CleanBatch`), and records handed back through
`update_task` and `record_attempt` keep their identity. `Rework.ReworkAccepted` and
`Rework.SignoffAccepted` prove that the two callers in the runtime hand over clean batches;
`RunHistory.UpdateTaskKeepsIndexIff` gives the exact condition for `update_task`.
`Protocol.InOrder` says in which order the runtime makes its calls: an attempt goes into flight only
under a task IN_PROGRESS, and a task leaves IN_PROGRESS only when none of its attempts is in flight.

## What the code does that its documentation does not say

* `build_workflow_graph` accepts a template that lists one hard dependency twice, and the runtime
  sort then fails on the compiled graph: it counts a repeated edge twice but stores successors in a
  set. `Compile.RepeatedDependencyEscapes` is such a definition of two templates;
  `DependencyGraph.OrderSucceedsIff` and `Compile.CompilationPreserves` give the exact condition.
* Two templates with one key hide the first from validation. `Compile.RepeatedKeyEscapes` is a
  three-template definition with a cycle that validation accepts and the runtime cannot schedule.
* `promote_ready_tasks` holds a READY -> WAITING_FOR_DEPENDENCY step that the transition table
  forbids. It is unreachable (`RunHistory.ScheduleCannotRaise`, `WorkflowRun.WorkflowRunState.PromoteOne`).
* `fail_task` and `block_task` let some states through that `transition` then refuses; both layers
  are modelled, and `Orchestration.FinalizeFailureIff` gives the states that really work.
* An event `{"event_type": "complete"}` without outcome and terminal mark settles the task and the
  event loop reads on; the next deciding event then moves a SUCCEEDED attempt and raises.
  `Stream.RepeatedCompletionCollides` is the stream of two such events;
  `Retry.TaskRunner.Process` proves that the loop raises on exactly the streams that `Stream.Collides`
  describes: an open completion with a deciding event after it that is still read.
* A stream in which no event decides, such as one that ends with outcome `stuck`, leaves its attempt
  RUNNING (`Stream.UndecidedIff`, `Retry.Settled`).
* Errors a worker recovered from are downgraded only when they are marked terminal:
  `Stream.UnmarkedFailureStillFails` is a worker that completes and is failed all the same;
  `Stream.DowngradeSpares` gives the exact condition.
* Recovery on load raises for a stale attempt whose task cannot be blocked;
  `LocalRuntime.Runtime.ReconcileStaleAttempts` says exactly when and what it leaves behind, and
  `LocalRuntime.UnorderedStrands` is a run of legal calls that ends there. No run whose calls are made
  in the runtime's order does (`LocalRuntime.CrashRecovers`).
* `_append_review_rework_tasks` reads the keys and appends in two locked blocks; with rework planned in
  between the append is refused (`Rework.ReworkRace`).

## Model

| member | source | states |
|---|---|---|
| Kahn.RunQueue | autoweave/workflows/spec.py:298-309 | the queue loop shared by both sorts emits exactly what the abstract drain emits, in the same order |
| Kahn.DrainCompleteIff | autoweave/orchestration/graph.py:44-54 | the sort emits every node exactly when no indegree is inflated, every need is a node and there is no cycle |
| Kahn.DrainOrder | autoweave/orchestration/graph.py:44-55 | whatever is emitted is free of duplicates and each node stands after everything it needs |
| Kahn.DrainTies | autoweave/orchestration/graph.py:44-52 | nodes that need nothing come first, as listed; every other node stands by its last need, and nodes with the same last need by name |
| Kahn.OnlyOneOrder | autoweave/orchestration/graph.py:44-52 | no two supported orders of the same nodes stand so: the queue and the sorting of children leave one answer only |
| DependencyGraph.OrderSucceedsIff | autoweave/orchestration/graph.py:36-55 | the runtime sort succeeds if and only if ids are unique, hard edges have known ends, none is repeated and none closes a cycle |
| DependencyGraph.OrderIsTopological | autoweave/orchestration/graph.py:44-55 | a successful sort is a permutation of the task ids with every dependency first |
| DependencyGraph.OrderSettled | autoweave/orchestration/graph.py:44-52 | in the runtime sort tasks without hard dependencies come first in the graph's order, every other task by its last dependency, ties by id |
| DependencyGraph.OrderIsTheOne | autoweave/orchestration/graph.py:36-55 | any topological order that stands so is the one the runtime sort returns |
| DependencyGraph.TopologicalOrder | autoweave/orchestration/graph.py:36-55 | the loops over edges and queue return or raise exactly what `Order` says, for any tasks and edges |
| DependencyGraph.BuildDependencyView | autoweave/orchestration/graph.py:18-33 | the view's predecessor and successor lists are those of the hard edges, in edge order, and its order is the sort's; it raises exactly when the sort does |
| CycleSearch.ValidateAcyclic | autoweave/workflows/spec.py:258-283 | accepts if and only if the dependency graph has no cycle; a reported cycle is a real closed dependency path |
| CycleSearch.Search.Visit | autoweave/workflows/spec.py:267-280 | one depth-first visit either finishes the node with everything below it, leaving marks and path as they were, or reports a real cycle |
| WorkflowSpec.ValidateDependencyReferences | autoweave/workflows/spec.py:251-255 | raises exactly when some listed dependency names no template |
| WorkflowSpec.Downstream | autoweave/workflows/spec.py:291-296 | the nested loops compute the number of distinct dependencies of each key and the inverse relation |
| WorkflowSpec.CompilerOrder | autoweave/workflows/spec.py:286-309 | the compiler's sort succeeds if and only if there is no cycle, and is then a permutation with each dependency first, by last dependency and then by key, so its length check never fires after validation |
| WorkflowSpec.CountedExact | autoweave/workflows/spec.py:50-56 | a template with no later one of its key counts with everything it lists, hard and soft |
| WorkflowSpec.BuildTopology | autoweave/workflows/spec.py:47-62 | a topology is built exactly for definitions with known references and no cycle, with a topological order of the keys |
| WorkflowSpec.BuildEdges | autoweave/workflows/spec.py:105-129 | emits one edge per listed dependency, hard before soft, in template order, or raises on an unknown key |
| WorkflowSpec.BuildWorkflowGraph | autoweave/workflows/spec.py:65-135 | returns the compiled graph exactly for accepted definitions |
| Compile.CompiledSchedulableIff | autoweave/workflows/spec.py:88-135 | the compiled graph meets the runtime sort's condition if and only if its hard dependency lines are unrepeated and acyclic |
| Compile.PredecessorsMapBack | autoweave/workflows/spec.py:105-118 | for distinct keys the runtime's hard predecessors of a task are exactly its template's hard dependencies, in order |
| Compile.CompiledEdge | autoweave/workflows/spec.py:105-129 | template by template, one hard edge per hard dependency and then one soft edge per soft one, in the listed order, from the dependency's task to the template's |
| Compile.CompiledTasks | autoweave/workflows/spec.py:88-103 | one CREATED task per template under its key, and as many edges as dependencies are listed |
| Compile.CompilationPreserves | autoweave/workflows/spec.py:65-135 | for distinct keys an accepted definition's graph can be sorted at runtime if and only if no template repeats a hard dependency |
| Compile.RepeatedDependencyEscapes | autoweave/workflows/spec.py:105-118 | a definition of two templates, the second needing the first twice, passes validation and its compiled graph cannot be sorted |
| Compile.RepeatedKeyEscapes | autoweave/workflows/spec.py:50-52 | with a repeated key a cyclic definition passes validation and its compiled graph cannot be sorted |
| Compile.CompiledStartable | autoweave/workflows/spec.py:65-135 | a compiled graph of distinct keys without repeated dependencies is a good starting point for a run |
| RunInvariant.FromGraphInv | autoweave/orchestration/state.py:39-46 | a run over a startable graph begins in the invariant |
| RunInvariant.AllCreatedStartable | autoweave/orchestration/state.py:39-46 | any well-formed acyclic graph of CREATED tasks is startable |
| RunInvariant.LookupId | autoweave/orchestration/state.py:51-56 | although keys are tried first, looking a task up by its own id finds that task |
| RunInvariant.LatestActiveIff | autoweave/orchestration/state.py:118-123 | `_latest_active_attempt_id` answers an attempt if and only if it is the task's one active attempt |
| RunInvariant.SetTaskInv | autoweave/orchestration/state.py:58-62 | storing a permitted record keeps the invariant and both indexes |
| RunInvariant.OpenAttemptInv | autoweave/orchestration/state.py:171-202 | opening an attempt keeps attempts numbered by position and at most one active per task |
| RunInvariant.PromoteInv | autoweave/orchestration/state.py:305-324 | promoting any set of tasks keeps the invariant |
| RunInvariant.AppendedInv | autoweave/orchestration/state.py:64-107 | appending a clean batch keeps the graph acyclic, ids and keys unique, dependencies safe and the status true |
| RunInvariant.ClarificationInv | autoweave/orchestration/state.py:392-422 | a clarification keeps the invariant even when the task transition raises after the request was stored |
| RunInvariant.ApprovalInv | autoweave/orchestration/state.py:443-472 | the same for an approval request |
| RunInvariant.ResolveInv | autoweave/orchestration/state.py:474-493 | resolving an approval keeps the invariant |
| RunInvariant.FailTaskInv | autoweave/orchestration/state.py:336-350 | failing a task keeps the invariant, and marks the run FAILED only with a FAILED task |
| RunInvariant.CompleteTaskInv | autoweave/orchestration/state.py:372-390 | completing a task keeps the invariant, and marks the run COMPLETED only when every task is |
| RunHistory.StepInv | autoweave/orchestration/state.py:58-493 | every method, called in any state of the invariant, returning or raising, keeps it |
| RunHistory.RunInv | autoweave/orchestration/state.py:27-497 | so does every sequence of calls |
| RunHistory.DependencySafety | autoweave/orchestration/state.py:305-390 | in every reachable state a task that has left CREATED and WAITING_FOR_DEPENDENCY has every transitive hard ancestor COMPLETED |
| RunHistory.ScheduleCannotRaise | autoweave/orchestration/state.py:305-324 | in every reachable state the sort succeeds and no READY task has an unfinished dependency, so neither way of raising exists |
| RunHistory.AttemptDiscipline | autoweave/orchestration/state.py:171-202 | in every reachable state an attempt's number is its position in its task's list and it is active if and only if it is the latest active one |
| RunHistory.StatusTruth | autoweave/orchestration/state.py:131-169 | in every reachable state COMPLETED means every task is completed, appended ones included, and FAILED means some task failed |
| RunHistory.RunGrows | autoweave/orchestration/state.py:58-107 | over a run no task, key or edge is lost, edges are only added into new tasks, and completed and failed tasks stay so |
| RunHistory.DoneKeptByGrowth | autoweave/orchestration/state.py:278-279 | a task whose hard dependencies are done keeps them done for ever |
| RunHistory.AppendedAtMostOnce | autoweave/orchestration/state.py:64-80 | a key is appended at most once over a whole run, and never if the graph already has it |
| RunHistory.RevisionStep | autoweave/orchestration/state.py:92-99 | the graph revision rises by exactly one on an append and by nothing on any other call |
| RunHistory.UpdateTaskKeepsIndexIff | autoweave/orchestration/state.py:58-62 | `update_task` keeps the indexes exact if and only if the id is known and its key unchanged |
| Effects.LookupEffect | autoweave/orchestration/state.py:51-56 | a task is found by its key as by its id, and nothing else is found |
| Effects.StartTaskEffect | autoweave/orchestration/state.py:326-334 | exactly a READY task starts; it becomes IN_PROGRESS without a reason and the run is live; nothing else changes |
| Effects.CompleteTaskEffect | autoweave/orchestration/state.py:372-390 | exactly a READY or IN_PROGRESS task completes; if every task then is COMPLETED the run is COMPLETED and ended, otherwise the run's record is as before |
| Effects.FailTaskEffect | autoweave/orchestration/state.py:336-350 | exactly a READY, IN_PROGRESS or BLOCKED task fails, and the run is then FAILED and ended |
| Effects.BlockTaskEffect | autoweave/orchestration/state.py:359-370 | from exactly four states the task becomes BLOCKED with the reason given |
| Effects.UnblockTaskEffect | autoweave/orchestration/state.py:352-357 | exactly a BLOCKED task becomes READY without a reason |
| Effects.PromoteEffect | autoweave/orchestration/state.py:305-324 | an unstarted task becomes READY if all its hard predecessors are COMPLETED; another CREATED one waits; every other task stays |
| Effects.PromoteAround | autoweave/orchestration/state.py:305-324 | promotion changes nothing but tasks |
| Effects.TaskEntries | autoweave/models.py:199-222 | from which states each task state is entered |
| Effects.AttemptEntries | autoweave/models.py:261-280 | from which states each attempt state is entered |
| Effects.OpenAttemptEffect | autoweave/orchestration/state.py:171-202 | with no attempt active the next one is appended to the task's list under the next number, QUEUED, with the lease and payload given; else refused |
| Effects.MoveAttemptEffect | autoweave/orchestration/state.py:244-272 | only the attempt's state changes, and only as the table allows |
| Effects.AttemptEnds | autoweave/orchestration/state.py:244-272 | the states from which each end or pause is reached, ORPHANED for a recoverable failure and ERRORED for any other |
| Effects.DispatchAttemptEffect | autoweave/orchestration/state.py:219-224 | exactly a QUEUED attempt is dispatched, and the run is live |
| Effects.StartAttemptEffect | autoweave/orchestration/state.py:226-242 | from exactly four states the attempt is RUNNING, and the run is live |
| Effects.ClarificationEffect | autoweave/orchestration/state.py:392-422 | the open question is reworded, or a new one stored with every field in its place; the task is parked from READY or IN_PROGRESS |
| Effects.ApprovalEffect | autoweave/orchestration/state.py:443-472 | the same for an approval of one type |
| Effects.AnswerEffect | autoweave/orchestration/state.py:424-441 | answer and answerer are recorded in their own fields; a waiting task becomes READY unless another attempt is active, else nothing else changes |
| Effects.ResolveEffect | autoweave/orchestration/state.py:474-493 | approval leaves a waiting task READY without a reason, rejection BLOCKED with "approval_rejected", unless another attempt is active; the request is Approved or Rejected |
| Effects.FailureEffect | autoweave/orchestration/service.py:94-108 | a recoverable failure leaves (ORPHANED, BLOCKED with the reason), any other (ERRORED, FAILED) and the run failed |
| Effects.SuccessEffect | autoweave/orchestration/service.py:89-92 | a success leaves (SUCCEEDED, COMPLETED), and the run completed if it was the last task's |
| Effects.AppendEffect | autoweave/orchestration/state.py:64-107 | refused exactly for a known id or key or an unknown edge end; else tasks and edges come last, one revision higher, the run live and not ended |
| WorkflowRun.WorkflowRunState.UpdateTask | autoweave/orchestration/state.py:58-62 | changes the object as specified, and keeps the invariant for permitted records |
| WorkflowRun.WorkflowRunState.AddDynamicTasks | autoweave/orchestration/state.py:64-107 | all or nothing: refused if an id or key exists or an edge end is unknown, else the whole batch and one revision |
| WorkflowRun.WorkflowRunState.LatestActiveAttempt | autoweave/orchestration/state.py:118-123 | the backward scan returns the last listed active attempt |
| WorkflowRun.WorkflowRunState.OpenAttempt | autoweave/orchestration/state.py:171-194 | refuses while an attempt is active, else records the next number |
| WorkflowRun.WorkflowRunState.StartAttempt | autoweave/orchestration/state.py:226-242 | a queued attempt passes through DISPATCHING; the run is marked running |
| WorkflowRun.WorkflowRunState.CanRun | autoweave/orchestration/state.py:299-303 | true exactly for an unstarted or READY task with every hard dependency completed |
| WorkflowRun.WorkflowRunState.HasNoReasons | autoweave/orchestration/state.py:281-297 | no readiness reason exists exactly when the task is not parked or running and its dependencies are done |
| WorkflowRun.WorkflowRunState.PromoteOne | autoweave/orchestration/state.py:305-324 | one task is promoted as specified; the forbidden transition is unreachable |
| WorkflowRun.WorkflowRunState.PromoteReadyTasks | autoweave/orchestration/state.py:305-324 | the sequential loop equals judging every task in the state before the call, and returns the runnable ones in topological order |
| WorkflowRun.WorkflowRunState.StartTask | autoweave/orchestration/state.py:326-334 | starts a READY task with done dependencies, else raises and changes nothing |
| WorkflowRun.WorkflowRunState.FailTask | autoweave/orchestration/state.py:336-350 | guard, transition table and run status as specified |
| WorkflowRun.WorkflowRunState.UnblockTask | autoweave/orchestration/state.py:352-357 | only a BLOCKED task becomes READY |
| WorkflowRun.WorkflowRunState.BlockTask | autoweave/orchestration/state.py:359-370 | guard and transition table as specified |
| WorkflowRun.WorkflowRunState.CompleteTask | autoweave/orchestration/state.py:372-390 | the two stores of a READY task amount to one, and the last completion completes the run |
| WorkflowRun.WorkflowRunState.RequestClarification | autoweave/orchestration/state.py:392-422 | the one open clarification is reworded or a new one stored, before the transition that may raise |
| WorkflowRun.WorkflowRunState.AnswerHumanRequest | autoweave/orchestration/state.py:424-441 | records the answer and releases the task unless another attempt is active |
| WorkflowRun.WorkflowRunState.RequestApproval | autoweave/orchestration/state.py:443-472 | the same for approvals of one type |
| WorkflowRun.WorkflowRunState.ResolveApproval | autoweave/orchestration/state.py:474-493 | approval makes the task READY, rejection BLOCKED, unless another attempt is active |
| WorkflowRun.WorkflowRunState.Perform | autoweave/orchestration/state.py:58-493 | any legal call leaves the object in the state the history says, invariant kept |
| Scheduler.WorkflowScheduler.Evaluate | autoweave/orchestration/scheduler.py:21-43 | one flag per task in topological order, true exactly for runnable tasks |
| Scheduler.WorkflowScheduler.Promote | autoweave/orchestration/scheduler.py:45-52 | promotes and answers what `Scheduled` says |
| Scheduler.TwoPassAgreement | autoweave/orchestration/scheduler.py:45-52 | the ids promoted by mutation are the ids found ready by looking again, in the same order, and exactly the READY tasks |
| Scheduler.ReadyBlockedPartition | autoweave/orchestration/scheduler.py:45-55 | ready and blocked partition the tasks, and a task is in ready if and only if `can_run` holds for it |
| Scheduler.SecondScheduleIdle | autoweave/orchestration/scheduler.py:45-52 | a second schedule changes nothing and answers the same |
| Scheduler.ReadyDistinct | autoweave/orchestration/scheduler.py:45-52 | a schedule never names a task twice |
| Scheduler.ScheduleOrdered | autoweave/orchestration/scheduler.py:21-55 | promoted, ready and blocked tasks are listed in topological order |
| Orchestration.FinalizeSuccessIff | autoweave/orchestration/service.py:89-92 | success is recorded if and only if the attempt is RUNNING and the task READY or IN_PROGRESS; otherwise no task changes |
| Orchestration.FinalizeFailureIff | autoweave/orchestration/service.py:94-108 | the exact attempt and task states from which a failure, recoverable or not, is recorded |
| Orchestration.OrchestrationService.FinalizeAttemptSuccess | autoweave/orchestration/service.py:89-92 | the two calls in sequence, the first of which may already have changed the attempt |
| Orchestration.OrchestrationService.FinalizeAttemptFailure | autoweave/orchestration/service.py:94-108 | the two calls in sequence, by recoverability |
| Orchestration.RecoverOutcome | autoweave/local_runtime.py:356-370 | one recovery round succeeds if and only if the task can be blocked, and then orphans that attempt and readies that task and nothing else |
| Orchestration.OrchestrationService.RecoverOne | autoweave/local_runtime.py:366-372 | the round as calls on the object |
| Stream.OpenCompletionIff | autoweave/local_runtime.py:1949-2083 | an event settles the task without ending the loop if and only if it is a completion by type alone, without outcome and terminal mark |
| Stream.SaysIff | autoweave/local_runtime.py:1949-1949 | the outcome is compared in letters of either case |
| Stream.StopTable | autoweave/local_runtime.py:1950-2083 | the loop stops after an event that asks a human or for approval, is marked terminal, or says one of ten words |
| Stream.VerdictAt | autoweave/local_runtime.py:1728-2083 | the verdict of a stream is the effect of the first deciding event the loop gets to |
| Stream.UndecidedIff | autoweave/local_runtime.py:1728-2083 | the worker is left running if and only if no event the loop gets to decides |
| Stream.CollisionSucceeds | autoweave/local_runtime.py:1962-1977 | a stream on which the loop raises has settled the task as a success before |
| Stream.RepeatedCompletionCollides | autoweave/workers/runtime.py:162-176 | two events that carry only the type `complete` make the loop raise |
| Stream.DowngradeRecovered | autoweave/local_runtime.py:1078-1118 | the backward pass turns exactly the failed ends with a good end somewhere after them into diagnostics |
| Stream.DowngradeSpares | autoweave/local_runtime.py:1091-1114 | a failure still counts if and only if it was not marked terminal or nothing ended well after it |
| Stream.RecoveredNotFailed | autoweave/local_runtime.py:1078-1118 | a worker that ended well is not failed for terminal errors it recovered from |
| Stream.UnmarkedFailureStillFails | autoweave/local_runtime.py:1100-1101 | without the terminal mark it is |
| Stream.EndTable | autoweave/local_runtime.py:1091-1098 | which events are good ends and which are bad, in the words of the events |
| Stream.RecoveredEnding | autoweave/local_runtime.py:1078-1118 | a worker that failed and recovered is settled by its last good end, and no such stream makes the loop raise |
| Retry.DecisionTable | autoweave/local_runtime.py:1759-2073 | for each pair of task and attempt states exactly which events leave them there: timeout, crash, orphaned and an empty-response failure (BLOCKED, ORPHANED), any other failure (FAILED, ERRORED), and so on for questions, approvals and successes |
| Retry.StreamEnding | autoweave/local_runtime.py:1728-2084 | a stream ends as its first deciding event, of those the loop gets to, would alone |
| Retry.NothingAfterStop | autoweave/local_runtime.py:2082-2083 | what follows an event that stops the loop is never looked at |
| Retry.RetryTable | autoweave/local_runtime.py:2329-2338 | a stream is retried if and only if it ends (BLOCKED, ORPHANED) and tells of an empty-response loop |
| Retry.CourseTable | autoweave/local_runtime.py:2154-2386 | where each way of not streaming leaves task and attempt, and when an attempt stays active |
| Protocol.StepApart | autoweave/orchestration/state.py:58-493 | a call that names neither a started task nor an attempt or request of it leaves the task, its attempts and their order exactly as they were |
| Protocol.RunApart | autoweave/orchestration/state.py:58-493 | so does any sequence of such calls |
| Protocol.StepGrounded | autoweave/local_runtime.py:2282-2286 | a call made in the runtime's order keeps every attempt in flight under a task IN_PROGRESS |
| Protocol.AlwaysGrounded | autoweave/local_runtime.py:1715-2401 | this holds at every moment of every run of such calls |
| Protocol.LeadsThroughGrounded | autoweave/local_runtime.py:1715-2401 | whatever workers did to a run, they did through such states only |
| Retry.TaskRunner.Ask | autoweave/local_runtime.py:1759-1886 | a question answered before readies the task, or fails it when the answer was reused too often; any other leaves the task waiting with an open clarification |
| Retry.TaskRunner.Begin | autoweave/local_runtime.py:2282-2286 | starting the task, then dispatching and starting its attempt never raises, and keeps that order |
| Retry.TaskRunner.Decide | autoweave/local_runtime.py:1759-2073 | a deciding event raises if and only if the attempt has been settled before, and otherwise leaves task and attempt in the states of its effect |
| Retry.TaskRunner.Process | autoweave/local_runtime.py:1715-2084 | the event loop raises if and only if the stream collides; either way task and attempt end as the first deciding event that is read says, whatever other threads do in between |
| Retry.TaskRunner.Attempt | autoweave/local_runtime.py:2154-2386 | from the checks before launch to the end of the stream, each course leads to exactly one pair of task and attempt states, and only a colliding stream raises |
| Retry.TaskRunner.RunTask | autoweave/local_runtime.py:2086-2401 | another attempt is made if and only if the last was lost to an empty-response loop and its number is below max_attempts; attempts are numbered consecutively; it raises if and only if the last stream collides; a task left waiting has an open request to answer; every call it makes is legal and in the runtime's order |
| DurableStore.SQLiteWorkflowRepository.SaveGraph | autoweave/storage/durable.py:183-203 | run, tasks and edges rewritten, or nothing at all |
| DurableStore.SQLiteWorkflowRepository.SaveRuntimeState | autoweave/storage/durable.py:543-582 | one transaction with the specified effect, or no effect at all |
| DurableStore.SaveTasksIs | autoweave/storage/durable.py:371-394 | saving tasks whose keys are free never violates the uniqueness constraint and upserts exactly their rows |
| DurableStore.SaveAttemptsIs | autoweave/storage/durable.py:740-759 | the same for attempts and the (task, number) constraint |
| CanonicalSync.StoredReadsBack | autoweave/storage/durable.py:205-224 | a stored graph is read back exactly |
| CanonicalSync.FullSave | autoweave/storage/durable.py:554-572 | a full rewrite never raises, stores exactly the run's graph and leaves every other run's tasks and edges |
| CanonicalSync.IncrementalSave | autoweave/storage/durable.py:573-576 | with an unchanged signature the incremental path stores exactly the same graph without deleting anything |
| CanonicalSync.SyncExact | autoweave/local_runtime.py:856-881 | one sync succeeds, leaves the store an exact image of the run, and touches no other run |
| CanonicalSync.HistoryInv | autoweave/local_runtime.py:769-881 | any interleaving of calls, syncs and other runs' writes keeps the next sync exact |
| CanonicalSync.SyncRefinesRewrite | autoweave/local_runtime.py:856-881 | after any such history a sync succeeds and `get_graph` returns exactly the run in memory, whichever path the signature chose |
| CanonicalSync.FreshRuntime | autoweave/local_runtime.py:322-345 | a runtime built on a loaded or a not yet stored graph starts in that condition |
| Reload.ByNumberOrdered | autoweave/storage/durable.py:457-463 | the listing is ordered by attempt number and lists exactly the run's attempts |
| Reload.ByNumberStable | autoweave/storage/durable.py:457-463 | attempts of equal number are listed in rowid order |
| Reload.ReplayExact | autoweave/local_runtime.py:399-404 | replaying attempts by number rebuilds the attempts and every task's list in its original order |
| Reload.SaveThenReload | autoweave/local_runtime.py:399-411 | a saved run loaded again is the same run: graph, indexes, attempts, lists, requests |
| Reload.ReloadKeepsAttempts | autoweave/orchestration/state.py:118-123 | hence the same latest active attempt and next attempt number for every task |
| Reload.ReloadedRuntime | autoweave/local_runtime.py:399-411 | a reloaded runtime's syncs are exact again |
| LocalRuntime.Runtime.SyncCanonicalState | autoweave/local_runtime.py:856-881 | performs the transaction the signature selects and remembers the signature if it succeeds |
| LocalRuntime.Runtime.ReconcileStaleAttempts | autoweave/local_runtime.py:356-383 | raises if and only if some stale attempt's task cannot be blocked; otherwise orphans exactly the stale attempts, readies exactly their tasks, changes nothing else and leaves the store in step; when it raises, the attempts before are recovered and persisted, the one it stopped at is orphaned in memory only, and the next sync is still exact |
| LocalRuntime.Runtime.LoadState | autoweave/local_runtime.py:399-408 | builds the reloaded state, or raises as `get_graph` does |
| LocalRuntime.Runtime.LoadWorkflowRun | autoweave/local_runtime.py:399-411 | after a sync, loading brings the same run back, minus its stale attempts; it never raises for a run whose attempts in flight have their tasks IN_PROGRESS, and leaves such a run |
| LocalRuntime.CrashRecovers | autoweave/local_runtime.py:356-411 | whatever calls, syncs and other runs' writes came before, in the runtime's order, what a sync persisted is loaded as it was and recovered without raising, whichever leases are held |
| LocalRuntime.HistoryGrounded | autoweave/local_runtime.py:856-881 | every such history keeps every attempt in flight under a task IN_PROGRESS |
| LocalRuntime.RecoveredExact | autoweave/local_runtime.py:356-383 | after recovery no attempt without a lease is in flight; exactly the lost attempts are ORPHANED and exactly their tasks READY |
| LocalRuntime.RecoverableIff | autoweave/local_runtime.py:366-372 | recovery succeeds if and only if every lost attempt's task is READY, IN_PROGRESS or waiting for somebody |
| LocalRuntime.UnorderedStrands | autoweave/local_runtime.py:366-372 | legal calls out of that order reach a state on which recovery raises |
| DispatchLoop.MaxParallelIs | autoweave/local_runtime.py:752-764 | the parallel limit is the least of the usable settings, and 1 only if one of them says so or none is usable |
| DispatchLoop.ChosenExact | autoweave/local_runtime.py:2838-2848 | a look chooses, in the schedule's order, the first ready tasks that are not busy: min(their number, max(0, limit - max(running, active))) of them |
| DispatchLoop.TurnsTaken | autoweave/local_runtime.py:2848-2868 | after a look the chosen tasks take their turns in order, each launched if and only if it is still READY |
| DispatchLoop.TurnsComplete | autoweave/local_runtime.py:2848-2868 | the turns go on until every chosen task has had one or no step is left, and only then does the loop wait |
| DispatchLoop.LooksEveryRound | autoweave/local_runtime.py:2831-2837 | every wait follows a look in the same round, unless a report has paused launching or no step is left |
| DispatchLoop.EndsWhen | autoweave/local_runtime.py:2831-2878 | with steps left, no pause and no exception the loop ends only after a look whose chosen tasks, if any, were no longer READY |
| DispatchLoop.BoundedAndDistinct | autoweave/local_runtime.py:2829-2868 | at no moment run more futures than the limit, nor two for one task, nor have more been launched than there are steps |
| DispatchLoop.NothingAfterPause | autoweave/local_runtime.py:2869-2878 | nothing is looked at or launched after a report that a worker needs input or is paused, or that its task waits |
| DispatchLoop.FinishOnce | autoweave/local_runtime.py:2870-2873 | a future reports at most once |
| DispatchLoop.Dispatch | autoweave/local_runtime.py:2831-2878 | in whatever world, the loop ends, every look, turn, wait and report is in order, and at the end nothing is left to do; it fails exactly when a future raised; otherwise every launch has reported |
| DispatchLoop.DryRun | autoweave/local_runtime.py:2779-2802 | without dispatch exactly the first ready task runs, if there is one |
| DispatchLoop.AdvanceCurrentWorkflow | autoweave/local_runtime.py:2768-2907 | the ordered reports are those of the launches, one each, in launch order |
| Rework.ReworkAccepted | autoweave/local_runtime.py:1340-1419 | the four tasks and five edges are a clean batch that `add_dynamic_tasks` accepts |
| Rework.ReworkIff | autoweave/local_runtime.py:1321-1444 | the plan is appended if and only if a review asks for revision and no rework key exists; never raises; nothing old changes and the revision rises by one |
| Rework.ReworkOnce | autoweave/local_runtime.py:1335-1338 | once planned, every later request plans nothing, whatever legal calls come in between |
| Rework.SignoffOnce | autoweave/local_runtime.py:1457-1460 | once appended, every later request for the signoff appends nothing, whatever legal calls come in between |
| Rework.ReworkRace | autoweave/local_runtime.py:1334-1424 | with other calls between reading the keys and appending, the append is refused, changing nothing, if and only if rework has been planned in between |
| Rework.ReworkShape | autoweave/local_runtime.py:1412-1418 | in the grown run, at once and after any further calls, manager_rework waits for exactly the review, backend_rework and frontend_rework for exactly manager_rework, integration_rework for exactly these two |
| Rework.IntegrationWaits | autoweave/local_runtime.py:1412-1418 | integration_rework may start only when the other three and the review are COMPLETED |
| Rework.SignoffShape | autoweave/local_runtime.py:1462-1485 | the signoff waits for exactly the task that triggered it |
| Rework.FollowUpIff | autoweave/local_runtime.py:1984-2001 | rework follows exactly a review that asks for it in a run without rework; the signoff exactly a review after which nothing was planned, or the integration, where it is required and absent |
| Rework.FollowUpIsOneAppend | autoweave/local_runtime.py:1984-2001 | the follow-up of a success is one legal append or nothing |
| Rework.SignoffIff | autoweave/local_runtime.py:1446-1505 | the signoff is appended if and only if it is required and absent |
| Rework.FollowUpSafe | autoweave/local_runtime.py:1984-2001 | the follow-up of a success never raises and appends at most one of the two batches |
| Rework.AppendReviewReworkTasks | autoweave/local_runtime.py:1321-1444 | does what `AppendRework` says |
| Rework.AppendReleaseSignoffTask | autoweave/local_runtime.py:1446-1505 | does what `AppendSignoff` says |
| Rework.FollowUpSuccess | autoweave/local_runtime.py:1984-2001 | does what `FollowUp` says |
| Repository.ReadsAgree | autoweave/storage/repositories.py:227-237 | when the indexes agree, reading a task by id, by key and out of its graph tells the same |
| Repository.SaveTaskAgreesIff | autoweave/storage/repositories.py:109-122 | `save_task` keeps the indexes in agreement if and only if id and key are new or already belong together |
| Repository.SaveGraphAgreesIff | autoweave/storage/repositories.py:50-59 | `save_graph` keeps them in agreement if and only if ids and keys are unique, tasks are its own and none is dropped or taken from another run |
| Repository.SaveArtifactAgreesIff | autoweave/storage/repositories.py:207-214 | the artifact lists stay in agreement if and only if the id stays with one run and task |
| Repository.FileExclusiveIff | autoweave/storage/repositories.py:124-132 | filing an id under a run keeps lists exclusive if and only if it is filed nowhere else |
| Repository.PutReads | autoweave/storage/repositories.py:170-175 | saving a record changes no other run's listing |
| Repository.PutOwnList | autoweave/storage/repositories.py:124-141 | on its run's own list a saved record takes its old place, or the last if it is new |
| Repository.SaveTaskReads | autoweave/storage/repositories.py:109-122 | a saved task is read by its id and by its run and key; no other task or graph reads differently |
| Repository.SaveTaskInGraph | autoweave/storage/repositories.py:114-121 | in its run's graph it takes its old place, or the last |
| Repository.SaveGraphReads | autoweave/storage/repositories.py:50-59 | a saved graph is read back whole, its tasks by id and by key; nothing outside it reads differently |
| Repository.SaveAttemptReads | autoweave/storage/repositories.py:124-132 | a saved attempt is stored, and listed under its task's run exactly if the task is known |
| Repository.SaveArtifactReads | autoweave/storage/repositories.py:207-214 | a saved artifact is stored and listed under its run and its task |
| Repository.DeleteExact | autoweave/storage/repositories.py:75-104 | deleting a run leaves nothing of it readable and changes no read of any other run |
| Repository.RepoRunAgrees | autoweave/storage/repositories.py:50-225 | any sequence of legal saves and deletes keeps every index in agreement |
| Repository.IndexesAgree | autoweave/storage/repositories.py:50-237 | from an empty repository: the three reads agree and a delete is exact, after any such sequence |
| InMemoryRepository.InMemoryWorkflowRepository.SaveGraph | autoweave/storage/repositories.py:50-59 | the loop registers every task as specified |
| InMemoryRepository.InMemoryWorkflowRepository.SaveTask | autoweave/storage/repositories.py:109-122 | index and graph change as specified |
| InMemoryRepository.InMemoryWorkflowRepository.SaveAttempt | autoweave/storage/repositories.py:124-132 | files the attempt under the task's run if the task is known |
| InMemoryRepository.InMemoryWorkflowRepository.SaveArtifact | autoweave/storage/repositories.py:207-214 | files the artifact under run and task |
| InMemoryRepository.InMemoryWorkflowRepository.DeleteWorkflowRun | autoweave/storage/repositories.py:75-104 | the loops of pops remove exactly what `Deleted` says, and agreement is kept |
| InMemoryRepository.InMemoryWorkflowRepository.UpstreamTaskIds | autoweave/storage/repositories.py:251-265 | terminates with exactly the tasks reached backwards by one or more hard edges; none is its own ancestor in an acyclic graph |
| InMemoryRepository.InMemoryWorkflowRepository.DependentTaskIds | autoweave/storage/repositories.py:267-281 | terminates with exactly the tasks the given one is upstream of |
| Closures.Reachable | autoweave/storage/repositories.py:258-265 | the worklist meets exactly what one or more arcs lead to |
| ArtifactRegistry.VersionRises | autoweave/artifacts/registry.py:36-50 | the version given is above every stored version of the key and every version given before |
| ArtifactRegistry.VersionExact | autoweave/artifacts/registry.py:36-50 | a positive version above every one taken is kept; any other becomes the one just above the greatest taken |
| ArtifactRegistry.PutEffect | autoweave/artifacts/registry.py:56-68 | a FINAL record makes the other FINAL ones of its run, task and type SUPERSEDED; every other record stays |
| ArtifactRegistry.PutRanked | autoweave/artifacts/registry.py:56-68 | a put keeps versions distinct, at most one FINAL per key, and FINAL above every SUPERSEDED |
| ArtifactRegistry.ExistingExact | autoweave/artifacts/registry.py:154-161 | the listing of a task within a run is exact |
| ArtifactRegistry.RegistryHistory | autoweave/artifacts/registry.py:36-68 | all this over any sequence of puts, with a fresh registry at any moment and over a filled repository; versions given for a key strictly increase |
| ArtifactRegistry.UnwantedIff | autoweave/artifacts/registry.py:100-121 | each filter by itself turns an artifact away |
| ArtifactRegistry.InMemoryArtifactRegistry.PutArtifact | autoweave/artifacts/registry.py:36-68 | repository, version table and returned record as specified |
| ArtifactRegistry.InMemoryArtifactRegistry.GetUpstreamArtifacts | autoweave/artifacts/registry.py:89-124 | returns exactly the wanted artifacts of transitive hard ancestors, sorted by creation, version and id |
| Coordination.SeparatedAcquires | autoweave/storage/coordination.py:259-284 | two granted acquires of one key are separated by a release or by the expiry last set; the same for idempotency claims |
| Coordination.ClaimContents | autoweave/storage/coordination.py:259-320 | while it stands a record has the key, time and value of the acquire that made it; only the expiry moves |
| Coordination.GrantTells | autoweave/storage/coordination.py:259-326 | after a grant not released, every acquire, heartbeat and read is answered by whether its time is before the expiry set last |
| Coordination.UntakenTells | autoweave/storage/coordination.py:259-326 | with no acquire since the start or the last release the key is free |
| Coordination.ReapAnywhere | autoweave/storage/coordination.py:294-299 | inserting `reap_expired` anywhere in a history changes no later answer of acquire, heartbeat, release or get |
| Coordination.Sweep | autoweave/storage/coordination.py:294-299 | removes and reports exactly the expired records |
| Coordination.InMemoryLeaseManager.AcquireLease | autoweave/storage/coordination.py:259-269 | granted exactly when no active lease exists |
| Coordination.InMemoryLeaseManager.HeartbeatLease | autoweave/storage/coordination.py:271-281 | extends an active lease keeping when it was acquired, else raises |
| Coordination.InMemoryLeaseManager.GetLease | autoweave/storage/coordination.py:286-292 | answers the record exactly while it is active |
| Coordination.InMemoryLeaseManager.ReapExpired | autoweave/storage/coordination.py:294-299 | as `Sweep` |
| Coordination.InMemoryIdempotencyStore.ClaimAction | autoweave/storage/coordination.py:309-320 | granted exactly when no active window exists |
| Coordination.InMemoryIdempotencyStore.GetRecord | autoweave/storage/coordination.py:322-326 | answers the record exactly while it is active |
| Coordination.InMemoryIdempotencyStore.ReapExpired | autoweave/storage/coordination.py:331-336 | as `Sweep` |
| Resp.Encode | autoweave/storage/coordination.py:165-173 | the loop writes the array header and one bulk string per part |
| Resp.RoundTrip | autoweave/storage/coordination.py:127-173 | reading an encoded command returns its parts and leaves the trailing bytes, whatever bytes they hold |
| Resp.ReplyReadsBack | autoweave/storage/coordination.py:127-163 | every reply a server may send, simple strings, numbers, bulk strings, null and nested arrays, is read back as it is and leaves the bytes behind it |
| Resp.OtherFrames | autoweave/storage/coordination.py:138-163 | error replies and unknown frames raise, a null array is null |
| Resp.OnTheWire | autoweave/storage/coordination.py:165-173 | four frames byte by byte |
| Resp.UniquelyDecodable | autoweave/storage/coordination.py:165-173 | commands sent one after another can be told apart in one way only |
| Resp.PartReadsBack | autoweave/storage/coordination.py:148-158 | a bulk string is read back even when it holds CR LF |
| Resp.ReadLine | autoweave/storage/coordination.py:128-136 | byte-by-byte reading stops at the first CR LF |
| Resp.ReadBulk | autoweave/storage/coordination.py:148-158 | the receive loop takes exactly size + 2 bytes whatever the chunks |
| Resp.ReadReply | autoweave/storage/coordination.py:127-163 | the reply and the bytes left do not depend on how the socket splits the stream |

## Left out

- HTTP, Celery, Redis transport, SQL text, Neo4j, the filesystem, YAML loading, settings, monitoring, dashboard and CLI: input and output or foreign code.
- autoweave/storage/postgres.py: the same table contract as the SQLite repository, with driver retries on top.
- OpenHands event parsing, clarification patterns, the matching of earlier answers and review cue matching: text heuristics; a stream is an arbitrary sequence of normalized events here, and each heuristic's answer an arbitrary boolean.
- `_collect_openhands_stream`: polling a conversation and the events it appends to the stream; any stream it may produce is covered by the arbitrary one.
- Routing, redaction, prompts, memory and event cursors: correct to model, but they add only easier members.
- Thread scheduling inside a locked block: each block under the runtime lock is one step.
- Retry.TaskRunner.RunTask: other threads' calls between its steps do not name its task, its attempts or its requests; it is entered with no attempt of the task active (with one, `open_attempt` refuses, as `WorkflowRun.WorkflowRunState.OpenAttempt` says); the backoff, and exceptions of the worker's HTTP client, are left out.
- WorkflowSpec.BuildWorkflowGraph: a malformed placeholder in a template's description, on which rendering raises, is not modelled.
- WorkflowRun.WorkflowRunState.HasNoReasons: only whether the list of reasons is empty; the reason texts are left out.
- Scheduler.WorkflowScheduler.Evaluate: the same for the reasons of each entry.
- InMemoryRepository.InMemoryWorkflowRepository.DeleteWorkflowRun: stated where the indexes agree, as they do after any legal saves and deletes (`Repository.RepoRunAgrees`).
- Rework.AppendReviewReworkTasks: reads the keys and appends in one step; `Rework.ReworkRace` says what a call in between the two locked blocks changes.
- DispatchLoop.Dispatch: what a running task does to the run is arbitrary, so nothing is claimed about attempts that are active without a running future.
- LocalRuntime.Runtime.ReconcileStaleAttempts: the lease answers are given as one set; the lifecycle events it publishes are left out.
- DurableStore.SQLiteWorkflowRepository.SaveRuntimeState: rows carry records, not JSON text; decisions, memory entries, artifacts and events are not tables here, and neither is the durable `delete_workflow_run`.
- CanonicalSync.SyncRefinesRewrite: assumes ids come from a space of the run's own, as uuid4 ids do.
- Repository.DeleteExact: decisions and memory entries are not part of the in-memory repository.
- ArtifactRegistry.InMemoryArtifactRegistry.PutArtifact: models the registry over a repository that stores artifacts; writing payload files is left out.
- Resp.ReadReply: text is bytes; decoding UTF-8 is left out. `Resp.ParseInt` accepts an optional sign and digits, while Python's `int` also accepts surrounding blanks and underscores.
- Coordination.InMemoryLeaseManager.ReapExpired: the order of the reported keys is not modelled.
- Coordination.InMemoryIdempotencyStore.ReapExpired: nor here.
- Coordination.Sweep: nor here.
- RedisLeaseManager and RedisIdempotencyStore: their guarantee rests on the Redis server, which is not part of this model.

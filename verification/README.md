# Batch ingestion scheduler — a Dafny model

This project models the core of a small data-ingestion service. Clients submit a
list of numeric ids with a priority (HIGH, MEDIUM or LOW). The service:

- checks that every id lies in [1, 10^9 + 7];
- cuts the list into consecutive batches of at most `BATCH_SIZE` = 3 ids;
- pushes the batches onto a min-priority queue ordered by (priority rank, creation time);
- records them under a fresh ingestion id.

A background loop pops one batch at a time. It does so only when at least
`RATE_LIMIT_SECONDS` = 5 time units have passed since the previous batch start.
Each popped batch goes YET_TO_START -> TRIGGERED -> COMPLETED. A status query
aggregates the batch statuses of one ingestion into an overall status.

The model is functional.

- `Batch` carries identity, ids, priority and creation time. The batch status
  lives in a map from batch id to status inside the global `State`. The source
  shares the same batch objects between the queue and the store. The map plays
  that role. The invariant `Valid` ties the two together: every queued batch
  is a stored batch, every stored batch that has not started is queued, and
  batch ids never collide. On every state reachable from start-up
  (`Schedule.RunPreservesValid`), a status written by the scheduler is what a
  status query reads.
- The heap is a sequence. `PopMin` promises only what the heap promises: one
  element is removed, and no element left behind is strictly less than it.
- One iteration of the background loop is `Step(s, now)`, with the clock reading
  passed in. It is the composition of `StartBatch` (pop, mark TRIGGERED) and
  `FinishBatch` (mark COMPLETED, record the start time). Because of this split,
  the TRIGGERED status that a concurrent status query can observe is part of
  the model.
- `Run` applies an interleaving of loop iterations and submissions. The rate
  limit is proved over such runs.

Modules: `Outcome` (Option/Result), `Batches` (enums, constants, comparator),
`BatchQueue` (push and min-pop), `Submission` (validation, chunking, batch
construction), `Status` (aggregation), `Service` (state, `Submit`, `Step`,
`GetStatus`), `Invariants` (the state invariant `Valid`), `Lifecycle` (status
evolution and reports), `Schedule` (runs and the rate limit), `Scenarios`
(concrete runs matching the repository's tests).

The aggregation rule has one consequence worth knowing. The overall status is
"COMPLETED if all, else TRIGGERED if any is TRIGGERED, else YET_TO_START".
Take an ingestion whose first batch has completed while the others still wait.
It reports YET_TO_START, even though it reported TRIGGERED while that first
batch was running. `Status.Aggregate` states this rule exactly, in both
directions.

## Model

| member | source | states |
|---|---|---|
| Batches.Less | main.py:36-41 | between different priorities the better rank wins; between equal priorities the earlier creation time wins |
| Batches.LessIrreflexive | main.py:36-41 | no batch compares less than itself |
| Batches.LessAsymmetric | main.py:36-41 | if a < b then not b < a |
| Batches.LessTransitive | main.py:36-41 | the comparator is transitive |
| Batches.LessTrichotomy | main.py:36-41 | two batches are incomparable exactly when they have the same priority and creation time |
| Batches.RankInjective | main.py:38 | distinct priorities get distinct ranks |
| Batches.PriorityDominates | main.py:39-40 | a strictly better priority rank wins regardless of creation times |
| Batches.PriorityOrder | main.py:37-40 | HIGH precedes MEDIUM and LOW; MEDIUM precedes LOW |
| Batches.SamePriorityByTime | main.py:41 | with equal priorities, a < b exactly when a was created earlier |
| BatchQueue.Push | main.py:91 | pushing adds exactly the new batches to the queue's multiset |
| BatchQueue.MinIndex | main.py:65 | returns a position holding an element no queue element is strictly less than |
| BatchQueue.RemoveAt | main.py:65 | removes exactly the element at the position; the others keep their relative order |
| BatchQueue.PopMin | main.py:65 | the popped batch was in the queue, exactly one copy is removed, and no element (remaining or original) is strictly less than it |
| BatchQueue.PopServesBestPriority | main.py:36-41 | the popped batch has the best priority pending and the earliest time within that priority |
| Submission.FirstInvalid | main.py:80-82 | none iff every id is in [1, 10^9+7]; otherwise the position of the first out-of-range id, with all ids before it in range |
| Submission.Chunk | main.py:85-90 | chunks concatenate back to the ids; each has 1..BATCH_SIZE ids; all but the last have exactly BATCH_SIZE; no chunks iff no ids |
| Submission.ChunkMatchesSlices | main.py:86-87 | there are ceil(n/3) chunks and chunk k is the slice ids[3k : 3k+3], cut at the end of the list |
| Submission.ChunkCount | main.py:86 | a list of n ids gives ceil(n/3) chunks |
| Submission.ChunkAt | main.py:86-87 | chunk k starts at position 3k, inside the list, and is the slice ids[3k : 3k+3] cut at the end of the list |
| Submission.ChunkKeepsValidity | main.py:80-87 | chunks of a validated list contain only in-range ids |
| Submission.MakeBatches | main.py:88-90 | batch k carries chunk k, the request's priority, the shared creation time and a fresh id |
| Status.AllCompleted | main.py:111 | true iff every status is COMPLETED, so true for no batches |
| Status.AnyTriggered | main.py:113 | true iff some status is TRIGGERED |
| Status.Aggregate | main.py:110-116 | COMPLETED iff all COMPLETED; TRIGGERED iff some TRIGGERED; YET_TO_START iff some YET_TO_START and none TRIGGERED |
| Service.Register | main.py:34 | every new batch starts YET_TO_START; other batches keep their status |
| Service.Submit | main.py:74-99 | rejected iff some id is out of range, naming the first one and leaving the state unchanged; if accepted, the ingestion is stored with batches whose ids concatenate to the request, sized 1..3 (all but the last exactly 3), sharing priority and time, all YET_TO_START; the queue grows by exactly those batches; the last batch time is unchanged |
| Service.StartBatch | main.py:51-65 | acts iff the queue is non-empty and the interval has elapsed; then it pops a minimal batch and marks it TRIGGERED; while that batch's work runs, the store, the counter and the last batch time are unchanged |
| Service.FinishBatch | main.py:55-67 | after the work, the batch is COMPLETED, the last batch time is the start time, and the queue, the store, the counter and every other status are unchanged |
| Service.Step | main.py:57-68 | does nothing (state unchanged) iff the queue is empty or now - last < 5; otherwise it serves one minimal queued batch: exactly one copy leaves the queue, its status becomes COMPLETED, other statuses, the store and the counter are unchanged, and the last batch time becomes now |
| Service.GetStatus | main.py:101-129 | not found iff the id is unknown; otherwise it reports every batch in original order with its id, ids and current status, and the overall status follows the three-way rule |
| Invariants.InitValid | main.py:44-47 | the start-up state satisfies the invariant |
| Invariants.NewBatches | main.py:85-90 | the batches of an accepted request are well formed and have fresh, distinct ids |
| Invariants.RecordValid | main.py:89-97 | pushing and storing fresh batches keeps the invariant (including that the queue holds exactly the stored batches not yet started) and leaves every existing status alone |
| Invariants.SubmitPreservesValid | main.py:74-99 | a submission keeps the invariant (including store-wide batch numbering), hands out an ingestion id not in the store whose batch ids have no status yet, and changes no existing status |
| Invariants.ValidStoreDistinct | main.py:76-91 | in a valid state no two stored batches share a batch id, as fresh uuids guarantee in the source, and a queued batch is the stored batch carrying its id, as the shared objects of lines 90-91 are; so one status entry belongs to one batch |
| Invariants.StepPreservesValid | main.py:57-68 | a scheduler step keeps the invariant: queued batches stay YET_TO_START, distinct, well formed and stored, and every stored batch not yet started is still queued |
| Lifecycle.ServedBatchLifecycle | main.py:51-55 | the served batch goes YET_TO_START -> TRIGGERED -> COMPLETED, and no status moves backwards at either half of the step |
| Lifecycle.StepPrefersPriority | main.py:65 | the served batch has the best pending priority and the earliest time within it; if a HIGH batch is pending, a HIGH batch is served |
| Lifecycle.StepNeverRegresses | main.py:53-55 | no status moves backwards over a step |
| Lifecycle.InFlightReportsTriggered | main.py:53-54 | the batch being worked on belongs to a stored ingestion, and while its work runs every ingestion holding it reports TRIGGERED |
| Lifecycle.UnstartedReport | main.py:106-128 | an ingestion with no started batch reports YET_TO_START (COMPLETED if it has no batches), with its batches' ids in order |
| Lifecycle.SubmitThenStatus | main.py:74-99 | right after acceptance, the status query reports every batch YET_TO_START, the ids round-trip, and the overall status is YET_TO_START (COMPLETED for an empty request) |
| Schedule.Run | main.py:57-68 | a run starts at most one batch per event, and no stored ingestion ever disappears |
| Schedule.RunSpacing | main.py:62-67 | in any run, the first start is at least 5 after the previous last start, consecutive starts are at least 5 apart, and the final last batch time is the last start |
| Schedule.SpacedPairs | main.py:64 | neighbour spacing implies that every pair of starts is spaced |
| Schedule.RateLimit | main.py:57-68 | in any run, any two batch starts are at least 5 time units apart |
| Schedule.AtMostOneStartPerWindow | test_main.py:59-83 | at most one batch starts in any window shorter than the interval |
| Schedule.RunPreservesValid | main.py:57-99 | every state reachable by submissions and steps from a valid state is valid |
| Scenarios.NineIdsMakeThreeBatches | test_main.py:103-115 | ids 1..9 become [1,2,3], [4,5,6], [7,8,9] |
| Scenarios.OutOfRangeIdsRejected | test_main.py:16-27 | [0,1,2] is rejected naming 0, and [1,2,10^9+8] naming 10^9+8; the state is unchanged |
| Scenarios.HighSubmissionPending | main.py:89-91 | an accepted non-empty HIGH request leaves a HIGH batch queued and the last batch time alone |
| Scenarios.MediumThenHighServesHighFirst | test_main.py:29-57 | MEDIUM submitted at 0, then HIGH at 1: the first batch served at time 5 is HIGH |

## Left out

- HTTP routing, status codes, request models and JSON shaping. The two error paths are `Error.InvalidId` (400) and `Error.NotFound` (404), inside a `Result`.
- `uuid.uuid4()`. Ingestion and batch ids are drawn from a counter in the state. `Invariants.SubmitPreservesValid` proves that the ingestion id and every new batch id are unused, and `Invariants.ValidStoreDistinct` that batch ids never collide across the store and the queue.
- `time.time()` floats. Time is an integer argument of `Submit` and `Step`. The initial last batch time is 0, as in the source. The source compares that 0 with epoch seconds, so the deployed service may start its first batch at once. Runs whose clock starts at 0, as in `Scenarios`, wait the full interval before the first start, which the deployed service never does.
- The lock, task creation, the one-second simulated work and the 0.1 polling sleep. `Run` treats each loop iteration as atomic. A submission that arrives while a batch's work runs is placed after that step: the pop has already happened, so its batches cannot compete with the batch in flight. The source does not take the lock in the submission handler; that interleaving is not modelled beyond the in-flight query lemma.
- The heap's array layout and sift operations. Only the min-pop contract is modelled: the popped batch is minimal and exactly one copy leaves the queue. Among equal keys the model takes the first minimal element in push order; heapq's sift operations make no such choice and may pop a later one. No row of the Model table relies on the model's choice; only the proof helper `Invariants.StepUnfold` exposes it. Batches of one submission share their key, so their processing order is not modelled.
- One batch per iteration: the source processes at most one batch per loop iteration whatever the queue depth. The model keeps this one-per-interval behaviour and does not explore an alternative.
- The ingestion's `created_time` is stored (`Ingestion.createdTime`) but never read, as in the source.

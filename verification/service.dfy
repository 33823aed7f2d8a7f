/**
  The ingestion service as a state machine: submissions push batches onto the
  queue and record them in the store, the scheduler step pops and processes one
  batch under the rate limit, and status queries aggregate batch statuses.
*/
module Service {
  import opened Outcome
  import opened Batches
  import opened BatchQueue
  import opened Submission
  import opened Status

  type IngestionId = nat

  datatype Error = InvalidId(id: int) | NotFound(ingestionId: IngestionId)

  /** A recorded submission: its batches in submission order and its time. */
  datatype Ingestion = Ingestion(batches: seq<Batch>, createdTime: int)

  /**
    The whole mutable state: pending batches, the status of every batch ever
    created, the ingestion store, the start time of the last batch, and the
    counter that hands out fresh identifiers.
  */
  datatype State = State(
    queue: seq<Batch>,
    status: map<BatchId, BatchStatus>,
    store: map<IngestionId, Ingestion>,
    lastBatchTime: int,
    nextId: nat)

  datatype BatchView = BatchView(batchId: BatchId, ids: seq<int>, status: BatchStatus)

  datatype StatusReport = StatusReport(ingestionId: IngestionId, status: BatchStatus, batches: seq<BatchView>)

  /** The state at process start: nothing queued or stored, last batch time 0. */
  function Init(): State
  {
    State([], map[], map[], 0, 0)
  }

  /** A batch as a submission builds it: 1 to BATCH_SIZE ids, all in range. */
  predicate WellFormed(b: Batch)
  {
    0 < |b.ids| <= BATCH_SIZE && forall i :: 0 <= i < |b.ids| ==> ValidId(b.ids[i])
  }

  /** Every stored batch has a status. */
  ghost predicate BatchesKnown(s: State)
  {
    forall iid, k :: iid in s.store && 0 <= k < |s.store[iid].batches| ==> s.store[iid].batches[k].id in s.status
  }

  ghost predicate DistinctIds(q: seq<Batch>)
  {
    forall i, j :: 0 <= i < |q| && 0 <= j < |q| && i != j ==> q[i].id != q[j].id
  }

  /** Every identifier handed out so far is below the counter. */
  ghost predicate IdsBelowCounter(s: State)
  {
    && (forall id :: id in s.status ==> id < s.nextId)
    && (forall iid :: iid in s.store ==> iid < s.nextId)
  }

  /** Every stored batch is well formed. */
  ghost predicate StoreWellFormed(s: State)
  {
    forall iid, k :: iid in s.store && 0 <= k < |s.store[iid].batches| ==> WellFormed(s.store[iid].batches[k])
  }

  /** Every queued batch is well formed and has not started. */
  ghost predicate QueuePending(s: State)
  {
    forall i :: 0 <= i < |s.queue| ==>
      s.queue[i].id in s.status && s.status[s.queue[i].id] == YetToStart && WellFormed(s.queue[i])
  }

  /** Batch k of ingestion `iid` has batch id iid + 1 + k: both come from one counter. */
  ghost predicate StoreNumbered(s: State)
  {
    forall iid, k :: iid in s.store && 0 <= k < |s.store[iid].batches| ==> s.store[iid].batches[k].id == iid + 1 + k
  }

  /**
    The identifier ranges iid .. iid + |batches| of the stored ingestions lie
    below the counter and do not overlap.
  */
  ghost predicate StoreSpans(s: State)
  {
    && (forall iid :: iid in s.store ==> iid + |s.store[iid].batches| < s.nextId)
    && (forall i, j :: i in s.store && j in s.store && i < j ==> i + |s.store[i].batches| < j)
  }

  /** Distinct stored batches have distinct batch ids, so one status entry belongs to one batch. */
  ghost predicate StoreDistinct(s: State)
  {
    forall i, k, j, l ::
      (i in s.store && j in s.store && 0 <= k < |s.store[i].batches| && 0 <= l < |s.store[j].batches| &&
       (i != j || k != l)) ==> s.store[i].batches[k].id != s.store[j].batches[l].id
  }

  /** `b` is one of the batches of some stored ingestion. */
  ghost predicate Stored(s: State, b: Batch)
  {
    exists iid :: iid in s.store && b in s.store[iid].batches
  }

  /** The queue holds only stored batches: the heap and the store share their batches. */
  ghost predicate QueueStored(s: State)
  {
    forall i :: 0 <= i < |s.queue| ==> Stored(s, s.queue[i])
  }

  /** Every stored batch that has not started is still queued. */
  ghost predicate PendingQueued(s: State)
  {
    forall iid, k :: iid in s.store && 0 <= k < |s.store[iid].batches| &&
      s.store[iid].batches[k].id in s.status && s.status[s.store[iid].batches[k].id] == YetToStart
      ==> s.store[iid].batches[k] in s.queue
  }

  /** The invariant every reachable state keeps. */
  ghost predicate Valid(s: State)
  {
    && BatchesKnown(s)
    && IdsBelowCounter(s)
    && StoreWellFormed(s)
    && QueuePending(s)
    && DistinctIds(s.queue)
    && StoreNumbered(s)
    && StoreSpans(s)
    && QueueStored(s)
    && PendingQueued(s)
  }

  function IdSet(bs: seq<Batch>): set<BatchId>
  {
    set b | b in bs :: b.id
  }

  /** Gives each new batch the status YET_TO_START. */
  function Register(status: map<BatchId, BatchStatus>, bs: seq<Batch>): (r: map<BatchId, BatchStatus>)
    ensures r.Keys == status.Keys + IdSet(bs)
    ensures forall b :: b in bs ==> b.id in r && r[b.id] == YetToStart
    ensures forall id :: id in status && id !in IdSet(bs) ==> r[id] == status[id]
  {
    map id | id in status.Keys + IdSet(bs) :: if id in IdSet(bs) then YetToStart else status[id]
  }

  /** `e` names the first id of `ids` that is out of range. */
  ghost predicate IsFirstInvalid(ids: seq<int>, e: Error)
  {
    e.InvalidId? &&
    exists i :: 0 <= i < |ids| && ids[i] == e.id && !ValidId(ids[i]) && forall j :: 0 <= j < i ==> ValidId(ids[j])
  }

  /** What an accepted submission of `ids` did to `s`, giving `s'` and ingestion `iid`. */
  ghost predicate Accepted(s: State, ids: seq<int>, priority: Priority, now: int, s': State, iid: IngestionId)
  {
    && s'.store.Keys == s.store.Keys + {iid}
    && (forall other :: other in s.store && other != iid ==> s'.store[other] == s.store[other])
    && s'.store[iid].createdTime == now
    && (var bs := s'.store[iid].batches;
        && Flatten(IdsOf(bs)) == ids
        && (|bs| == 0 <==> |ids| == 0)
        && (forall k :: 0 <= k < |bs| ==>
              && 0 < |bs[k].ids| <= BATCH_SIZE
              && bs[k].priority == priority
              && bs[k].createdTime == now
              && bs[k].id in s'.status
              && s'.status[bs[k].id] == YetToStart)
        && (forall k :: 0 <= k < |bs| - 1 ==> |bs[k].ids| == BATCH_SIZE)
        && s'.queue == s.queue + bs)
    && s'.lastBatchTime == s.lastBatchTime
  }

  /**
    A submission of `ids` with `priority` at time `now`. Every id is checked
    before anything is built, so a rejected submission leaves the state as it
    was and reports the first offending id.
  */
  function Submit(s: State, ids: seq<int>, priority: Priority, now: int): (r: (State, Result<IngestionId, Error>))
    ensures r.1.Err? <==> exists i :: 0 <= i < |ids| && !ValidId(ids[i])
    ensures r.1.Err? ==> r.0 == s && IsFirstInvalid(ids, r.1.error)
    ensures r.1.Ok? ==> Accepted(s, ids, priority, now, r.0, r.1.value)
  {
    match FirstInvalid(ids)
    case Some(i) => (s, Err(InvalidId(ids[i])))
    case None => (Accept(s, ids, priority, now), Ok(s.nextId))
  }

  /** The state after accepting `ids`: its chunks, as fresh batches, recorded. */
  function Accept(s: State, ids: seq<int>, priority: Priority, now: int): State
  {
    Record(s, MakeBatches(Chunk(ids), s.nextId + 1, priority, now), now)
  }

  /**
    Pushes the batches of a new ingestion, gives them status YET_TO_START, and
    stores them under the next fresh identifier.
  */
  function Record(s: State, batches: seq<Batch>, now: int): State
  {
    var iid := s.nextId;
    State(
      Push(s.queue, batches),
      Register(s.status, batches),
      s.store[iid := Ingestion(batches, now)],
      s.lastBatchTime,
      iid + 1 + |batches|)
  }

  /**
    First half of a scheduler iteration: when the queue is non-empty and the
    rate-limit interval has elapsed since the last batch start, pop a minimal
    batch and mark it TRIGGERED.
  */
  function StartBatch(s: State, now: int): (r: Option<(State, Batch)>)
    ensures r.None? <==> |s.queue| == 0 || now - s.lastBatchTime < RATE_LIMIT_SECONDS
    ensures r.Some? ==>
      && r.value.1 in s.queue
      && multiset(s.queue) == multiset(r.value.0.queue) + multiset{r.value.1}
      && (forall x :: x in s.queue ==> !Less(x, r.value.1))
      && r.value.0.status == s.status[r.value.1.id := Triggered]
      && r.value.0.store == s.store
      && r.value.0.lastBatchTime == s.lastBatchTime
      && r.value.0.nextId == s.nextId
  {
    if |s.queue| > 0 && now - s.lastBatchTime >= RATE_LIMIT_SECONDS then
      var (b, rest) := PopMin(s.queue);
      Some((s.(queue := rest, status := s.status[b.id := Triggered]), b))
    else
      None
  }

  /** Second half: the batch's work is done; mark it COMPLETED and record its start time. */
  function FinishBatch(s: State, b: Batch, start: int): (r: State)
    ensures r.status.Keys == s.status.Keys + {b.id}
    ensures r.status[b.id] == Completed
    ensures forall id :: id in s.status && id != b.id ==> r.status[id] == s.status[id]
    ensures r.lastBatchTime == start
    ensures r.queue == s.queue && r.store == s.store && r.nextId == s.nextId
  {
    s.(status := s.status[b.id := Completed], lastBatchTime := start)
  }

  /** What a scheduler step that served batch `b` at time `now` did to `s`, giving `s'`. */
  ghost predicate Served(s: State, now: int, s': State, b: Batch)
  {
    && b in s.queue
    && now - s.lastBatchTime >= RATE_LIMIT_SECONDS
    && multiset(s.queue) == multiset(s'.queue) + multiset{b}
    && (forall x :: x in s.queue ==> !Less(x, b))
    && s'.status == s.status[b.id := Completed]
    && s'.lastBatchTime == now
    && s'.store == s.store
    && s'.nextId == s.nextId
  }

  /**
    One iteration of the background loop at time `now`. It either does nothing
    (empty queue or interval not elapsed) or serves exactly one minimal batch;
    the served batch, if any, is returned.
  */
  function Step(s: State, now: int): (r: (State, Option<Batch>))
    ensures r.1.None? <==> |s.queue| == 0 || now - s.lastBatchTime < RATE_LIMIT_SECONDS
    ensures r.1.None? ==> r.0 == s
    ensures r.1.Some? ==> Served(s, now, r.0, r.1.value)
  {
    match StartBatch(s, now)
    case None => (s, None)
    case Some((mid, b)) => (FinishBatch(mid, b, now), Some(b))
  }

  /** The statuses of `bs`, in order. */
  function StatusesOf(s: State, bs: seq<Batch>): (r: seq<BatchStatus>)
    requires forall k :: 0 <= k < |bs| ==> bs[k].id in s.status
    ensures |r| == |bs|
    ensures forall k :: 0 <= k < |bs| ==> r[k] == s.status[bs[k].id]
  {
    seq(|bs|, k requires 0 <= k < |bs| => s.status[bs[k].id])
  }

  /** `rep` is the status report of stored ingestion `iid` in state `s`. */
  ghost predicate Reports(s: State, iid: IngestionId, rep: StatusReport)
    requires iid in s.store && BatchesKnown(s)
  {
    var bs := s.store[iid].batches;
    && rep.ingestionId == iid
    && |rep.batches| == |bs|
    && (forall k :: 0 <= k < |bs| ==> rep.batches[k] == BatchView(bs[k].id, bs[k].ids, s.status[bs[k].id]))
    && (rep.status == Completed <==> forall k :: 0 <= k < |bs| ==> s.status[bs[k].id] == Completed)
    && (rep.status == Triggered <==> exists k :: 0 <= k < |bs| && s.status[bs[k].id] == Triggered)
    && (rep.status == YetToStart <==>
          (exists k :: 0 <= k < |bs| && s.status[bs[k].id] == YetToStart) &&
          (forall k :: 0 <= k < |bs| ==> s.status[bs[k].id] != Triggered))
  }

  /** The status query: not found for an unknown id, otherwise the report. */
  function GetStatus(s: State, iid: IngestionId): (r: Result<StatusReport, Error>)
    requires BatchesKnown(s)
    ensures r.Err? <==> iid !in s.store
    ensures r.Err? ==> r.error == NotFound(iid)
    ensures r.Ok? ==> Reports(s, iid, r.value)
  {
    if iid !in s.store then Err(NotFound(iid))
    else
      var bs := s.store[iid].batches;
      var views := seq(|bs|, k requires 0 <= k < |bs| => BatchView(bs[k].id, bs[k].ids, s.status[bs[k].id]));
      Ok(StatusReport(iid, Aggregate(StatusesOf(s, bs)), views))
  }
}

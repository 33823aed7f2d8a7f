/**
  Batches, their priority and status enumerations, the service's constants and
  the comparator the pending-batch heap orders batches by.
*/
module Batches {

  /** Largest id a submission may carry (10^9 + 7); the smallest is 1. */
  const MAX_ID: int := 1_000_000_007

  /** Number of ids a submission is cut into per batch. */
  const BATCH_SIZE: nat := 3

  /** Minimum time between the starts of two consecutive batches. */
  const RATE_LIMIT_SECONDS: int := 5

  datatype Priority = High | Medium | Low

  datatype BatchStatus = YetToStart | Triggered | Completed

  type BatchId = nat

  /**
    A batch: identity, payload, priority and creation time. Its mutable status
    is not stored here but in the scheduler state, keyed by `id`, so that the
    store and the queue see the same status.
  */
  datatype Batch = Batch(id: BatchId, ids: seq<int>, priority: Priority, createdTime: int)

  /** Rank of a priority: the smaller the rank, the sooner the batch is served. */
  function Rank(p: Priority): nat
  {
    match p
    case High => 0
    case Medium => 1
    case Low => 2
  }

  /** Position of a status along YET_TO_START -> TRIGGERED -> COMPLETED. */
  function Progress(st: BatchStatus): nat
  {
    match st
    case YetToStart => 0
    case Triggered => 1
    case Completed => 2
  }

  /**
    The batch comparator: lower priority rank first, then earlier creation time.
    The two cases are told apart by the priorities themselves.
  */
  function Less(a: Batch, b: Batch): (r: bool)
    ensures a.priority != b.priority ==> (r <==> Rank(a.priority) < Rank(b.priority))
    ensures a.priority == b.priority ==> (r <==> a.createdTime < b.createdTime)
  {
    if Rank(a.priority) != Rank(b.priority) then Rank(a.priority) < Rank(b.priority)
    else a.createdTime < b.createdTime
  }

  /** Two batches the comparator cannot tell apart. */
  predicate SameKey(a: Batch, b: Batch)
  {
    a.priority == b.priority && a.createdTime == b.createdTime
  }

  lemma RankInjective(p: Priority, q: Priority)
    ensures Rank(p) == Rank(q) <==> p == q
  {
  }

  lemma LessIrreflexive(a: Batch)
    ensures !Less(a, a)
  {
  }

  lemma LessAsymmetric(a: Batch, b: Batch)
    ensures Less(a, b) ==> !Less(b, a)
  {
  }

  lemma LessTransitive(a: Batch, b: Batch, c: Batch)
    requires Less(a, b) && Less(b, c)
    ensures Less(a, c)
  {
  }

  /** Batches are incomparable exactly when their keys coincide. */
  lemma LessTrichotomy(a: Batch, b: Batch)
    ensures !Less(a, b) && !Less(b, a) <==> SameKey(a, b)
  {
    RankInjective(a.priority, b.priority);
  }

  /** A strictly better priority wins whatever the creation times are. */
  lemma PriorityDominates(a: Batch, b: Batch)
    requires Rank(a.priority) < Rank(b.priority)
    ensures Less(a, b) && !Less(b, a)
  {
  }

  /** HIGH precedes MEDIUM precedes LOW. */
  lemma PriorityOrder(a: Batch, b: Batch)
    ensures a.priority == High && b.priority != High ==> Less(a, b)
    ensures a.priority == Medium && b.priority == Low ==> Less(a, b)
  {
  }

  /** Within one priority, the earlier submission comes first. */
  lemma SamePriorityByTime(a: Batch, b: Batch)
    requires a.priority == b.priority
    ensures Less(a, b) <==> a.createdTime < b.createdTime
  {
  }
}

/** How batch statuses evolve and what the status query reports along the way. */
module Lifecycle {
  import opened Outcome
  import opened Batches
  import opened Submission
  import opened Service
  import opened Invariants

  /**
    A served batch was pending, is TRIGGERED while its work runs and COMPLETED
    afterwards; no status anywhere moves backwards over either half of the step.
  */
  lemma ServedBatchLifecycle(s: State, now: int)
    requires Valid(s)
    requires Step(s, now).1.Some?
    ensures var b := Step(s, now).1.value;
      && StartBatch(s, now).Some?
      && StartBatch(s, now).value.1 == b
      && b.id in s.status && s.status[b.id] == YetToStart
      && StartBatch(s, now).value.0.status[b.id] == Triggered
      && Step(s, now).0.status[b.id] == Completed
    ensures forall id :: id in s.status ==>
      && id in StartBatch(s, now).value.0.status
      && id in Step(s, now).0.status
      && Progress(s.status[id]) <= Progress(StartBatch(s, now).value.0.status[id])
      && Progress(StartBatch(s, now).value.0.status[id]) <= Progress(Step(s, now).0.status[id])
  {
    var b := Step(s, now).1.value;
    var i :| 0 <= i < |s.queue| && s.queue[i] == b;
  }

  /**
    The batch a step serves has the best priority pending and, within that
    priority, the earliest creation time: with HIGH batches pending, a HIGH
    batch is served.
  */
  lemma StepPrefersPriority(s: State, now: int)
    requires Step(s, now).1.Some?
    ensures forall x :: x in s.queue ==> Rank(Step(s, now).1.value.priority) <= Rank(x.priority)
    ensures forall x :: x in s.queue && x.priority == Step(s, now).1.value.priority ==>
      Step(s, now).1.value.createdTime <= x.createdTime
    ensures (exists x :: x in s.queue && x.priority == High) ==> Step(s, now).1.value.priority == High
  {
  }

  /** Statuses never move backwards over a scheduler step. */
  lemma StepNeverRegresses(s: State, now: int)
    ensures forall id :: id in s.status ==>
      id in Step(s, now).0.status && Progress(s.status[id]) <= Progress(Step(s, now).0.status[id])
  {
  }

  /**
    The batch a step starts belongs to a stored ingestion, and while its work
    runs every ingestion holding it reports TRIGGERED, whatever the other
    batches' statuses are.
  */
  lemma InFlightReportsTriggered(s: State, now: int)
    requires Valid(s)
    requires StartBatch(s, now).Some?
    ensures BatchesKnown(StartBatch(s, now).value.0)
    ensures exists iid :: iid in s.store && StartBatch(s, now).value.1 in s.store[iid].batches
    ensures forall iid :: iid in s.store && StartBatch(s, now).value.1 in s.store[iid].batches ==>
      && GetStatus(StartBatch(s, now).value.0, iid).Ok?
      && GetStatus(StartBatch(s, now).value.0, iid).value.status == Triggered
  {
    var (mid, b) := StartBatch(s, now).value;
    var i :| 0 <= i < |s.queue| && s.queue[i] == b;
    assert Stored(s, s.queue[i]);
    forall iid | iid in s.store && b in s.store[iid].batches
      ensures GetStatus(mid, iid).value.status == Triggered
    {
      var bs := s.store[iid].batches;
      var k :| 0 <= k < |bs| && bs[k] == b;
      assert mid.status[bs[k].id] == Triggered;
    }
  }

  /** The id lists of a status report's batches, in order. */
  function ReportedIds(views: seq<BatchView>): seq<seq<int>>
  {
    seq(|views|, k requires 0 <= k < |views| => views[k].ids)
  }

  /**
    An ingestion none of whose batches has started reports YET_TO_START (or
    COMPLETED when it has no batches), every batch YET_TO_START, and the
    batches' ids in order.
  */
  lemma UnstartedReport(s: State, iid: IngestionId)
    requires BatchesKnown(s) && iid in s.store
    requires forall b :: b in s.store[iid].batches ==> s.status[b.id] == YetToStart
    ensures GetStatus(s, iid).Ok?
    ensures GetStatus(s, iid).value.status == (if |s.store[iid].batches| == 0 then Completed else YetToStart)
    ensures forall v :: v in GetStatus(s, iid).value.batches ==> v.status == YetToStart
    ensures ReportedIds(GetStatus(s, iid).value.batches) == IdsOf(s.store[iid].batches)
  {
    var bs := s.store[iid].batches;
    if |bs| > 0 {
      assert s.status[bs[0].id] == YetToStart;
    }
  }

  /**
    A fresh accepted ingestion reports every batch YET_TO_START, in order, with
    ids that concatenate to the submitted ones; overall it is YET_TO_START, or
    COMPLETED when no ids were sent.
  */
  lemma SubmitThenStatus(s: State, ids: seq<int>, priority: Priority, now: int, s': State, iid: IngestionId)
    requires Valid(s)
    requires Submit(s, ids, priority, now) == (s', Ok(iid))
    ensures BatchesKnown(s')
    ensures GetStatus(s', iid).Ok?
    ensures GetStatus(s', iid).value.status == (if |ids| == 0 then Completed else YetToStart)
    ensures forall v :: v in GetStatus(s', iid).value.batches ==> v.status == YetToStart
    ensures Flatten(ReportedIds(GetStatus(s', iid).value.batches)) == ids
  {
    SubmitPreservesValid(s, ids, priority, now);
    assert Accepted(s, ids, priority, now, s', iid);
    var bs := s'.store[iid].batches;
    assert forall b :: b in bs ==> s'.status[b.id] == YetToStart;
    UnstartedReport(s', iid);
  }
}

/** The state invariant, and what each operation preserves of the rest of the state. */
module Invariants {
  import opened Outcome
  import opened Batches
  import opened BatchQueue
  import opened Submission
  import opened Service

  lemma InitValid()
    ensures Valid(Init())
  {
  }

  /** Batches numbered consecutively from just above the counter, each well formed. */
  ghost predicate FreshBatches(s: State, bs: seq<Batch>)
  {
    forall k :: 0 <= k < |bs| ==> WellFormed(bs[k]) && bs[k].id == s.nextId + 1 + k
  }

  /** The batches an accepted submission builds are fresh and well formed. */
  lemma NewBatches(s: State, ids: seq<int>, priority: Priority, now: int)
    requires forall i :: 0 <= i < |ids| ==> ValidId(ids[i])
    ensures FreshBatches(s, MakeBatches(Chunk(ids), s.nextId + 1, priority, now))
  {
    ChunkKeepsValidity(ids);
  }

  lemma RecordKnown(s: State, bs: seq<Batch>, now: int)
    requires BatchesKnown(s)
    ensures BatchesKnown(Record(s, bs, now))
  {
    var s' := Record(s, bs, now);
    forall j, k | j in s'.store && 0 <= k < |s'.store[j].batches|
      ensures s'.store[j].batches[k].id in s'.status
    {
      if j == s.nextId {
        assert s'.store[j].batches[k] in bs;
      } else {
        assert s'.store[j].batches[k] == s.store[j].batches[k];
      }
    }
  }

  /** Recording fresh batches keeps identifiers below the counter and leaves existing statuses alone. */
  lemma RecordKeepsStatuses(s: State, bs: seq<Batch>, now: int)
    requires IdsBelowCounter(s) && FreshBatches(s, bs)
    ensures IdsBelowCounter(Record(s, bs, now))
    ensures forall id :: id in s.status ==> id in Record(s, bs, now).status && Record(s, bs, now).status[id] == s.status[id]
  {
    var s' := Record(s, bs, now);
    assert forall id :: id in IdSet(bs) ==> id > s.nextId;
    forall id | id in s.status
      ensures id in s'.status && s'.status[id] == s.status[id]
    {
      assert id !in IdSet(bs);
    }
  }

  lemma RecordStoreWellFormed(s: State, bs: seq<Batch>, now: int)
    requires StoreWellFormed(s) && FreshBatches(s, bs)
    ensures StoreWellFormed(Record(s, bs, now))
  {
  }

  lemma RecordQueuePending(s: State, bs: seq<Batch>, now: int)
    requires QueuePending(s) && IdsBelowCounter(s) && FreshBatches(s, bs)
    ensures QueuePending(Record(s, bs, now))
  {
    var s' := Record(s, bs, now);
    assert s'.queue == s.queue + bs;
    assert forall id :: id in IdSet(bs) ==> id > s.nextId;
    forall i | 0 <= i < |s'.queue|
      ensures s'.queue[i].id in s'.status && s'.status[s'.queue[i].id] == YetToStart && WellFormed(s'.queue[i])
    {
      if i < |s.queue| {
        assert s'.queue[i] == s.queue[i];
        assert s.queue[i].id !in IdSet(bs);
      } else {
        assert s'.queue[i] == bs[i - |s.queue|];
      }
    }
  }

  lemma RecordDistinct(s: State, bs: seq<Batch>, now: int)
    requires DistinctIds(s.queue) && QueuePending(s) && IdsBelowCounter(s) && FreshBatches(s, bs)
    ensures DistinctIds(Record(s, bs, now).queue)
  {
    var q := Record(s, bs, now).queue;
    assert q == s.queue + bs;
    forall i, j | 0 <= i < |q| && 0 <= j < |q| && i != j
      ensures q[i].id != q[j].id
    {
      if i < |s.queue| && j >= |s.queue| {
        assert s.queue[i].id in s.status;
      } else if i >= |s.queue| && j < |s.queue| {
        assert s.queue[j].id in s.status;
      }
    }
  }

  lemma RecordNumbered(s: State, bs: seq<Batch>, now: int)
    requires StoreNumbered(s) && FreshBatches(s, bs)
    ensures StoreNumbered(Record(s, bs, now))
  {
  }

  lemma RecordSpans(s: State, bs: seq<Batch>, now: int)
    requires StoreSpans(s)
    ensures StoreSpans(Record(s, bs, now))
  {
  }

  lemma RecordQueueStored(s: State, bs: seq<Batch>, now: int)
    requires QueueStored(s) && IdsBelowCounter(s)
    ensures QueueStored(Record(s, bs, now))
  {
    var s' := Record(s, bs, now);
    assert s'.queue == s.queue + bs;
    forall i | 0 <= i < |s'.queue|
      ensures Stored(s', s'.queue[i])
    {
      if i < |s.queue| {
        assert Stored(s, s.queue[i]);
        var j :| j in s.store && s.queue[i] in s.store[j].batches;
        assert s'.store[j] == s.store[j];
      } else {
        assert s'.queue[i] in s'.store[s.nextId].batches;
      }
    }
  }

  lemma RecordPendingQueued(s: State, bs: seq<Batch>, now: int)
    requires PendingQueued(s) && BatchesKnown(s) && IdsBelowCounter(s) && FreshBatches(s, bs)
    ensures PendingQueued(Record(s, bs, now))
  {
    var s' := Record(s, bs, now);
    assert s'.queue == s.queue + bs;
    assert forall id :: id in IdSet(bs) ==> id > s.nextId;
    forall iid, k | iid in s'.store && 0 <= k < |s'.store[iid].batches| &&
      s'.store[iid].batches[k].id in s'.status && s'.status[s'.store[iid].batches[k].id] == YetToStart
      ensures s'.store[iid].batches[k] in s'.queue
    {
      if iid == s.nextId {
        assert s'.store[iid].batches[k] in bs;
      } else {
        var x := s.store[iid].batches[k];
        assert s'.store[iid].batches[k] == x;
        assert x.id !in IdSet(bs);
        assert x in s.queue;
      }
    }
  }

  /** Recording fresh batches keeps a valid state valid. */
  lemma RecordValid(s: State, bs: seq<Batch>, now: int)
    requires Valid(s) && FreshBatches(s, bs)
    ensures Valid(Record(s, bs, now))
    ensures forall id :: id in s.status ==> id in Record(s, bs, now).status && Record(s, bs, now).status[id] == s.status[id]
  {
    RecordKnown(s, bs, now);
    RecordKeepsStatuses(s, bs, now);
    RecordStoreWellFormed(s, bs, now);
    RecordQueuePending(s, bs, now);
    RecordDistinct(s, bs, now);
    RecordNumbered(s, bs, now);
    RecordSpans(s, bs, now);
    RecordQueueStored(s, bs, now);
    RecordPendingQueued(s, bs, now);
  }

  /**
    In a valid state no two stored batches share a batch id, so the status
    the scheduler writes for one batch is read back for that batch only.
  */
  /**
    In a valid state no two stored batches share a batch id, and a queued batch
    is the very stored batch that carries its id: one status entry belongs to
    one batch, whether the scheduler or the status query looks at it.
  */
  lemma ValidStoreDistinct(s: State)
    requires Valid(s)
    ensures StoreDistinct(s)
    ensures forall i, iid, k ::
      (0 <= i < |s.queue| && iid in s.store && 0 <= k < |s.store[iid].batches| &&
       s.queue[i].id == s.store[iid].batches[k].id) ==> s.queue[i] == s.store[iid].batches[k]
  {
    forall i, iid, k |
      0 <= i < |s.queue| && iid in s.store && 0 <= k < |s.store[iid].batches| &&
      s.queue[i].id == s.store[iid].batches[k].id
      ensures s.queue[i] == s.store[iid].batches[k]
    {
      var j :| j in s.store && s.queue[i] in s.store[j].batches;
      var l :| 0 <= l < |s.store[j].batches| && s.store[j].batches[l] == s.queue[i];
    }
  }

  /** Ingestion `iid` is new in `s'`: its id and every one of its batch ids were unused in `s`. */
  ghost predicate FreshIngestion(s: State, s': State, iid: IngestionId)
  {
    && iid !in s.store
    && iid in s'.store
    && forall k :: 0 <= k < |s'.store[iid].batches| ==> s'.store[iid].batches[k].id !in s.status
  }

  /**
    From a valid state a submission hands out a fresh ingestion id, leaves
    every existing status alone, and keeps the state valid.
  */
  lemma SubmitPreservesValid(s: State, ids: seq<int>, priority: Priority, now: int)
    requires Valid(s)
    ensures Valid(Submit(s, ids, priority, now).0)
    ensures Submit(s, ids, priority, now).1.Ok? ==>
      FreshIngestion(s, Submit(s, ids, priority, now).0, Submit(s, ids, priority, now).1.value)
    ensures forall id :: id in s.status ==>
      id in Submit(s, ids, priority, now).0.status && Submit(s, ids, priority, now).0.status[id] == s.status[id]
  {
    if FirstInvalid(ids).None? {
      AcceptValid(s, ids, priority, now);
      SubmitUnfold(s, ids, priority, now);
    }
  }

  /** Accepting a validated request keeps a valid state valid and leaves existing statuses alone. */
  lemma AcceptValid(s: State, ids: seq<int>, priority: Priority, now: int)
    requires Valid(s)
    requires forall i :: 0 <= i < |ids| ==> ValidId(ids[i])
    ensures Valid(Accept(s, ids, priority, now))
    ensures forall id :: id in s.status ==>
      id in Accept(s, ids, priority, now).status && Accept(s, ids, priority, now).status[id] == s.status[id]
    ensures FreshIngestion(s, Accept(s, ids, priority, now), s.nextId)
  {
    var bs := MakeBatches(Chunk(ids), s.nextId + 1, priority, now);
    NewBatches(s, ids, priority, now);
    RecordValid(s, bs, now);
    var t := Record(s, bs, now);
    assert Accept(s, ids, priority, now) == t;
    assert t.store[s.nextId].batches == bs;
  }

  /** An accepted submission records its batches under the counter's current value. */
  lemma SubmitUnfold(s: State, ids: seq<int>, priority: Priority, now: int)
    requires FirstInvalid(ids).None?
    ensures Submit(s, ids, priority, now).0 == Accept(s, ids, priority, now)
    ensures Submit(s, ids, priority, now).1 == Ok(s.nextId)
  {
  }

  /**
    The state a serving step produces, spelled out. It exposes the model's
    choice of the first minimal element, which only this proof relies on.
  */
  lemma StepUnfold(s: State, now: int)
    requires |s.queue| > 0 && now - s.lastBatchTime >= RATE_LIMIT_SECONDS
    ensures var m := MinIndex(s.queue);
      var b := s.queue[m];
      var r := Step(s, now);
      && r.1 == Some(b)
      && r.0.queue == RemoveAt(s.queue, m)
      && r.0.status == s.status[b.id := Completed]
      && r.0.store == s.store
      && r.0.lastBatchTime == now
      && r.0.nextId == s.nextId
  {
  }

  /** Removing the batch at position `m` from a pending, duplicate-free queue. */
  lemma RemovePending(s: State, m: nat, status': map<BatchId, BatchStatus>)
    requires QueuePending(s) && DistinctIds(s.queue) && m < |s.queue|
    requires status' == s.status[s.queue[m].id := Completed]
    ensures var rest := RemoveAt(s.queue, m);
      && DistinctIds(rest)
      && forall k :: 0 <= k < |rest| ==>
           rest[k].id in status' && status'[rest[k].id] == YetToStart && WellFormed(rest[k])
  {
    var rest := RemoveAt(s.queue, m);
    forall k | 0 <= k < |rest|
      ensures rest[k].id in status' && status'[rest[k].id] == YetToStart && WellFormed(rest[k])
    {
      var j := if k < m then k else k + 1;
      assert rest[k] == s.queue[j] && j != m;
    }
    forall i, j | 0 <= i < |rest| && 0 <= j < |rest| && i != j
      ensures rest[i].id != rest[j].id
    {
      var i' := if i < m then i else i + 1;
      var j' := if j < m then j else j + 1;
      assert rest[i] == s.queue[i'] && rest[j] == s.queue[j'] && i' != j';
    }
  }

  /** Serving the batch at position `m` keeps the queue and the store in step. */
  lemma RemoveKeepsLinks(s: State, m: nat, s': State)
    requires QueueStored(s) && PendingQueued(s) && m < |s.queue|
    requires s'.queue == RemoveAt(s.queue, m)
    requires s'.status == s.status[s.queue[m].id := Completed]
    requires s'.store == s.store
    ensures QueueStored(s') && PendingQueued(s')
  {
    var rest := s'.queue;
    forall k | 0 <= k < |rest|
      ensures Stored(s', rest[k])
    {
      var j := if k < m then k else k + 1;
      assert rest[k] == s.queue[j];
      assert Stored(s, s.queue[j]);
    }
    forall iid, k | iid in s'.store && 0 <= k < |s'.store[iid].batches| &&
      s'.store[iid].batches[k].id in s'.status && s'.status[s'.store[iid].batches[k].id] == YetToStart
      ensures s'.store[iid].batches[k] in rest
    {
      var x := s.store[iid].batches[k];
      assert x.id != s.queue[m].id;
      assert x in s.queue;
      assert x in multiset(s.queue);
      assert x in multiset(rest);
    }
  }

  /** A scheduler step keeps a valid state valid. */
  lemma StepPreservesValid(s: State, now: int)
    requires Valid(s)
    ensures Valid(Step(s, now).0)
  {
    if |s.queue| > 0 && now - s.lastBatchTime >= RATE_LIMIT_SECONDS {
      var r := Step(s, now);
      var m := MinIndex(s.queue);
      StepUnfold(s, now);
      RemovePending(s, m, r.0.status);
      RemoveKeepsLinks(s, m, r.0);
      assert QueuePending(r.0);
    }
  }
}

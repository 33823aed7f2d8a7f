/**
  The pure part of a submission: range validation of the ids and their split
  into consecutive batches of at most BATCH_SIZE ids.
*/
module Submission {
  import opened Outcome
  import opened Batches

  /** An id the service accepts: 1 <= id <= 10^9 + 7. */
  predicate ValidId(id: int)
  {
    1 <= id <= MAX_ID
  }

  /** Position of the first id outside the accepted range, if any. */
  function FirstInvalid(ids: seq<int>): (r: Option<nat>)
    ensures r.None? <==> forall i :: 0 <= i < |ids| ==> ValidId(ids[i])
    ensures r.Some? ==> r.value < |ids| && !ValidId(ids[r.value])
    ensures r.Some? ==> forall j :: 0 <= j < r.value ==> ValidId(ids[j])
    decreases |ids|
  {
    if |ids| == 0 then None
    else if !ValidId(ids[0]) then Some(0)
    else
      match FirstInvalid(ids[1..])
      case None => None
      case Some(i) => Some(i + 1)
  }

  /** Concatenation of a list of chunks. */
  function Flatten(chunks: seq<seq<int>>): seq<int>
    decreases |chunks|
  {
    if |chunks| == 0 then [] else chunks[0] + Flatten(chunks[1..])
  }

  /**
    Splits `ids` into consecutive chunks: every chunk is non-empty and at most
    BATCH_SIZE long, every chunk but the last is exactly BATCH_SIZE long, and
    the chunks concatenate back to `ids`.
  */
  function Chunk(ids: seq<int>): (r: seq<seq<int>>)
    ensures Flatten(r) == ids
    ensures forall k :: 0 <= k < |r| ==> 0 < |r[k]| <= BATCH_SIZE
    ensures forall k :: 0 <= k < |r| - 1 ==> |r[k]| == BATCH_SIZE
    ensures |r| == 0 <==> |ids| == 0
    decreases |ids|
  {
    if |ids| == 0 then []
    else if |ids| <= BATCH_SIZE then [ids]
    else
      var rest := Chunk(ids[BATCH_SIZE..]);
      assert ([ids[..BATCH_SIZE]] + rest)[1..] == rest;
      assert ids[..BATCH_SIZE] + ids[BATCH_SIZE..] == ids;
      [ids[..BATCH_SIZE]] + rest
  }

  function Min(a: int, b: int): int
  {
    if a <= b then a else b
  }

  /** There are ceil(|ids| / BATCH_SIZE) chunks. */
  lemma {:induction false} ChunkCount(ids: seq<int>)
    ensures |Chunk(ids)| == (|ids| + BATCH_SIZE - 1) / BATCH_SIZE
    decreases |ids|
  {
    if |ids| > BATCH_SIZE {
      ChunkCount(ids[BATCH_SIZE..]);
    }
  }

  /**
    Chunk `k` is the slice ids[k*BATCH_SIZE .. (k+1)*BATCH_SIZE], cut at the
    end of the list.
  */
  lemma {:induction false} ChunkAt(ids: seq<int>, k: nat)
    requires k < |Chunk(ids)|
    ensures k * BATCH_SIZE < |ids|
    ensures Chunk(ids)[k] == ids[k * BATCH_SIZE .. Min((k + 1) * BATCH_SIZE, |ids|)]
    decreases k
  {
    if k > 0 {
      var tail := ids[BATCH_SIZE..];
      assert Chunk(ids) == [ids[..BATCH_SIZE]] + Chunk(tail);
      ChunkAt(tail, k - 1);
      ShiftBounds(k, |ids|);
      ShiftSlice(ids, BATCH_SIZE, (k - 1) * BATCH_SIZE, Min(k * BATCH_SIZE, |tail|));
    }
  }

  /** Moving one chunk along moves both slice bounds by BATCH_SIZE. */
  lemma ShiftBounds(k: nat, n: int)
    requires k > 0
    ensures (k - 1) * BATCH_SIZE + BATCH_SIZE == k * BATCH_SIZE
    ensures Min(k * BATCH_SIZE, n - BATCH_SIZE) + BATCH_SIZE == Min((k + 1) * BATCH_SIZE, n)
  {
  }

  /** A slice of a suffix is a slice of the whole, shifted. */
  lemma ShiftSlice(ids: seq<int>, d: nat, lo: int, hi: int)
    requires d <= |ids| && 0 <= lo <= hi <= |ids| - d
    ensures ids[d..][lo..hi] == ids[lo + d .. hi + d]
  {
  }

  /**
    The chunks are exactly the slices ids[k*BATCH_SIZE .. (k+1)*BATCH_SIZE]
    (cut at the end of the list) for k = 0, 1, ... while k*BATCH_SIZE < |ids|.
  */
  lemma ChunkMatchesSlices(ids: seq<int>)
    ensures |Chunk(ids)| == (|ids| + BATCH_SIZE - 1) / BATCH_SIZE
    ensures forall k :: 0 <= k < |Chunk(ids)| ==>
      k * BATCH_SIZE < |ids| && Chunk(ids)[k] == ids[k * BATCH_SIZE .. Min((k + 1) * BATCH_SIZE, |ids|)]
  {
    ChunkCount(ids);
    forall k | 0 <= k < |Chunk(ids)|
      ensures k * BATCH_SIZE < |ids| && Chunk(ids)[k] == ids[k * BATCH_SIZE .. Min((k + 1) * BATCH_SIZE, |ids|)]
    {
      ChunkAt(ids, k);
    }
  }

  /** Every id in a chunk is an id of the request, so a validated request gives in-range chunks. */
  lemma ChunkKeepsValidity(ids: seq<int>)
    requires forall i :: 0 <= i < |ids| ==> ValidId(ids[i])
    ensures forall k, i :: 0 <= k < |Chunk(ids)| && 0 <= i < |Chunk(ids)[k]| ==> ValidId(Chunk(ids)[k][i])
  {
    ChunkMatchesSlices(ids);
  }

  /** The payloads of a list of batches, in order. */
  function IdsOf(bs: seq<Batch>): (r: seq<seq<int>>)
    ensures |r| == |bs|
    ensures forall k :: 0 <= k < |bs| ==> r[k] == bs[k].ids
  {
    seq(|bs|, k requires 0 <= k < |bs| => bs[k].ids)
  }

  /**
    Wraps each chunk in a batch with the request's priority and creation time;
    the k-th batch gets the identifier `firstId + k`.
  */
  function MakeBatches(chunks: seq<seq<int>>, firstId: BatchId, priority: Priority, createdTime: int): (r: seq<Batch>)
    ensures |r| == |chunks|
    ensures forall k :: 0 <= k < |r| ==> r[k] == Batch(firstId + k, chunks[k], priority, createdTime)
    ensures IdsOf(r) == chunks
    decreases |chunks|
  {
    if |chunks| == 0 then []
    else [Batch(firstId, chunks[0], priority, createdTime)] + MakeBatches(chunks[1..], firstId + 1, priority, createdTime)
  }
}

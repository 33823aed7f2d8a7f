/** Concrete runs of the service, matching the behaviour the repository's tests expect. */
module Scenarios {
  import opened Outcome
  import opened Batches
  import opened Submission
  import opened Service
  import opened Lifecycle

  /** Nine ids are cut into three batches of three, in order. */
  lemma NineIdsMakeThreeBatches()
    ensures Chunk([1, 2, 3, 4, 5, 6, 7, 8, 9]) == [[1, 2, 3], [4, 5, 6], [7, 8, 9]]
  {
    var ids := [1, 2, 3, 4, 5, 6, 7, 8, 9];
    assert Chunk([7, 8, 9]) == [[7, 8, 9]];
    assert [4, 5, 6, 7, 8, 9][..BATCH_SIZE] == [4, 5, 6] && [4, 5, 6, 7, 8, 9][BATCH_SIZE..] == [7, 8, 9];
    assert Chunk([4, 5, 6, 7, 8, 9]) == [[4, 5, 6], [7, 8, 9]];
    assert ids[..BATCH_SIZE] == [1, 2, 3] && ids[BATCH_SIZE..] == [4, 5, 6, 7, 8, 9];
  }

  /** Id 0 and id 10^9 + 8 each reject the whole request, which changes nothing. */
  lemma OutOfRangeIdsRejected(s: State, priority: Priority, now: int)
    ensures Submit(s, [0, 1, 2], priority, now) == (s, Err(InvalidId(0)))
    ensures Submit(s, [1, 2, 1_000_000_008], priority, now) == (s, Err(InvalidId(1_000_000_008)))
  {
    assert !ValidId([0, 1, 2][0]);
    assert !ValidId([1, 2, 1_000_000_008][2]);
  }

  /** An accepted non-empty HIGH submission leaves a HIGH batch pending and the last batch time alone. */
  lemma HighSubmissionPending(s: State, ids: seq<int>, now: int)
    requires |ids| > 0 && Submit(s, ids, High, now).1.Ok?
    ensures exists x :: x in Submit(s, ids, High, now).0.queue && x.priority == High
    ensures Submit(s, ids, High, now).0.lastBatchTime == s.lastBatchTime
  {
    var r := Submit(s, ids, High, now);
    assert Accepted(s, ids, High, now, r.0, r.1.value);
    var bs := r.0.store[r.1.value].batches;
    assert bs[0] in r.0.queue;
  }

  /**
    A MEDIUM request followed by a HIGH one: once the interval has elapsed,
    the first batch started is a HIGH batch.
  */
  lemma MediumThenHighServesHighFirst()
    ensures var s1 := Submit(Init(), [1, 2, 3, 4, 5], Medium, 0).0;
      var s2 := Submit(s1, [6, 7, 8, 9], High, 1).0;
      Step(s2, 5).1.Some? && Step(s2, 5).1.value.priority == High
  {
    var s1 := Submit(Init(), [1, 2, 3, 4, 5], Medium, 0).0;
    assert s1.lastBatchTime == 0;
    var ids2 := [6, 7, 8, 9];
    assert ValidId(ids2[0]) && ValidId(ids2[1]) && ValidId(ids2[2]) && ValidId(ids2[3]);
    HighSubmissionPending(s1, ids2, 1);
    StepPrefersPriority(Submit(s1, ids2, High, 1).0, 5);
  }
}
